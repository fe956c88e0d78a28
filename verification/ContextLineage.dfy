/**
 The context tree: the parents named by a child's log, the fork entries in the parents' logs and the
 persisted tree are one duplicate-free, acyclic relation, and every captured parent snapshot is the
 parent's log replayed up to the fork entry, for ever.
 */
module ContextLineage {
  import opened Options
  import opened ContextLog
  import opened ContextRecovery

  ghost function Parents(log: seq<LogEntry>): seq<ContextId> {
    if log != [] && log[0].data.ContextCreated? then log[0].data.parents else []
  }

  ghost function Captured(log: seq<LogEntry>): seq<Snapshot> {
    if |log| > 1 && log[1].data.ContextDataInitialized? then log[1].data.parentContexts else []
  }

  ghost function Children(log: seq<LogEntry>): seq<ContextId> {
    if log == [] then []
    else
      var e := log[|log| - 1].data;
      Children(log[..|log| - 1]) + if e.ChildContextCreated? then [e.child] else []
  }

  ghost predicate IsFork(log: seq<LogEntry>, j: int, c: ContextId) {
    0 <= j < |log| && log[j].data == ChildContextCreated(c)
  }

  ghost predicate FoldsTo(d: Deltas, log: seq<LogEntry>, sn: Snapshot) {
    var v := Fold(d, log);
    v.Ok? && v.value.ctx.Some? && v.value.ctx.value.payload == sn.payload && v.value.ctx.value.userData == sn.userData
  }

  /** `sn` is what the parent's log replays to just before its only entry that names the child `c`. */
  ghost predicate CapturedAtFork(d: Deltas, log: seq<LogEntry>, c: ContextId, sn: Snapshot) {
    exists j :: IsFork(log, j, c) && FoldsTo(d, log[..j], sn)
  }

  ghost predicate ForkedOnce(log: seq<LogEntry>, c: ContextId) {
    forall j, k :: IsFork(log, j, c) && IsFork(log, k, c) ==> j == k
  }

  ghost predicate NoDuplicates(s: seq<ContextId>) {
    forall i, j :: 0 <= i < j < |s| ==> s[i] != s[j]
  }

  /** `p` was created before `c`. */
  ghost predicate Before(order: seq<ContextId>, p: ContextId, c: ContextId) {
    exists i, j :: 0 <= i < j < |order| && order[i] == p && order[j] == c
  }

  ghost predicate WellBorn(d: Deltas, order: seq<ContextId>, data: Logs, c: ContextId)
    requires c in data
  {
    var ids, sns := Parents(data[c]), Captured(data[c]);
    && data[c] != []
    && NoDuplicates(ids)
    && |sns| == |ids|
    && (ids != [] ==> |data[c]| > 1)
    && (forall i :: 0 <= i < |ids| ==>
          && sns[i].ctxId == ids[i]
          && ids[i] in data
          && Before(order, ids[i], c)
          && CapturedAtFork(d, data[ids[i]], c, sns[i]))
  }

  ghost predicate ForksAgree(data: Logs, p: ContextId, c: ContextId)
    requires p in data
  {
    && ForkedOnce(data[p], c)
    && (c in Children(data[p]) <==> c in data && p in Parents(data[c]))
  }

  ghost predicate Lineage(d: Deltas, s: System) {
    && WellKeyed(s)
    && (forall c :: c in s.data ==> WellBorn(d, s.order, s.data, c))
    && (forall p, c :: p in s.data ==> ForksAgree(s.data, p, c))
    && (forall p :: p in s.data ==> s.tree[p] == Children(s.data[p]))
    && (forall c :: c in s.contexts ==> s.contexts[c].parents == Captured(s.data[c]))
  }

  /******* Logs only grow *******/

  ghost predicate Extends(data: Logs, data1: Logs) {
    forall p :: p in data ==> p in data1 && data[p] <= data1[p]
  }

  lemma WellBornGrows(d: Deltas, order: seq<ContextId>, data: Logs, order1: seq<ContextId>, data1: Logs, c: ContextId)
    requires c in data && WellBorn(d, order, data, c) && Extends(data, data1) && order <= order1
    requires |data[c]| > 1 || Captured(data1[c]) == []
    ensures WellBorn(d, order1, data1, c)
    ensures Parents(data1[c]) == Parents(data[c]) && Captured(data1[c]) == Captured(data[c])
  {
    var ids, sns := Parents(data[c]), Captured(data[c]);
    assert data[c][0] == data1[c][0];
    forall i | 0 <= i < |ids|
      ensures Before(order1, ids[i], c) && ids[i] in data1 && CapturedAtFork(d, data1[ids[i]], c, sns[i])
    {
      var log, log1 := data[ids[i]], data1[ids[i]];
      var j :| IsFork(log, j, c) && FoldsTo(d, log[..j], sns[i]);
      assert log1[j] == log[j] && log1[..j] == log[..j];
      assert IsFork(log1, j, c);
      var a, b :| 0 <= a < b < |order| && order[a] == ids[i] && order[b] == c;
      assert order1[a] == order[a] && order1[b] == order[b];
    }
  }

  lemma ChildrenSnoc(log: seq<LogEntry>, e: LogEntry)
    ensures Children(log + [e]) == Children(log) + if e.data.ChildContextCreated? then [e.data.child] else []
  {
    assert (log + [e])[..|log|] == log;
  }

  /** The children listed are the forks, so a log that forks every child once lists it once. */
  lemma {:induction false} ChildrenAreForks(log: seq<LogEntry>)
    ensures forall c :: c in Children(log) <==> exists j :: IsFork(log, j, c)
    ensures (forall c :: ForkedOnce(log, c)) ==> NoDuplicates(Children(log))
  {
    if log != [] {
      var init, e := log[..|log| - 1], log[|log| - 1];
      ChildrenAreForks(init);
      forall c ensures c in Children(log) <==> exists j :: IsFork(log, j, c) {
        if j :| IsFork(init, j, c) {
          assert IsFork(log, j, c);
        }
        if e.data == ChildContextCreated(c) {
          assert IsFork(log, |log| - 1, c);
        }
        if j :| IsFork(log, j, c) && j < |log| - 1 {
          assert IsFork(init, j, c);
        }
      }
      if forall c :: ForkedOnce(log, c) {
        forall c ensures ForkedOnce(init, c) {
          assert ForkedOnce(log, c);
          forall j, k | IsFork(init, j, c) && IsFork(init, k, c) ensures j == k {
            assert IsFork(log, j, c) && IsFork(log, k, c);
          }
        }
        if e.data.ChildContextCreated? && e.data.child in Children(init) {
          var j :| IsFork(init, j, e.data.child);
          assert ForkedOnce(log, e.data.child);
          assert IsFork(log, j, e.data.child) && IsFork(log, |log| - 1, e.data.child);
          assert false;
        }
      }
    }
  }

  /******* Operations that append one entry *******/

  ghost predicate Plain(data: EntryData) {
    !data.ContextCreated? && !data.ContextDataInitialized? && !data.ChildContextCreated?
  }

  lemma PlainEntryKeepsLog(data: Logs, p: ContextId, e: LogEntry, c: ContextId)
    requires p in data && Plain(e.data) && data[p] != []
    requires ForkedOnce(data[p], c)
    ensures var log1 := data[p] + [e];
            && Parents(log1) == Parents(data[p])
            && Captured(log1) == Captured(data[p])
            && Children(log1) == Children(data[p])
            && ForkedOnce(log1, c)
  {
    ChildrenSnoc(data[p], e);
    var log1 := data[p] + [e];
    forall j, k | IsFork(log1, j, c) && IsFork(log1, k, c) ensures j == k {
      assert IsFork(data[p], j, c) && IsFork(data[p], k, c);
    }
  }

  /** Nothing the lineage is about has changed in any log. */
  ghost predicate SameLineage(data: Logs, data1: Logs) {
    && data1.Keys == data.Keys
    && Extends(data, data1)
    && forall p :: p in data ==>
         && data[p] != [] && data1[p] != []
         && Parents(data1[p]) == Parents(data[p])
         && Captured(data1[p]) == Captured(data[p])
         && Children(data1[p]) == Children(data[p])
  }

  lemma LogsAreForkedOnce(d: Deltas, s: System)
    requires Lineage(d, s)
    ensures forall p :: p in s.data ==> s.data[p] != []
    ensures forall p, c :: p in s.data ==> ForkedOnce(s.data[p], c)
  {
    forall p | p in s.data ensures s.data[p] != [] {
      assert WellBorn(d, s.order, s.data, p);
    }
    forall p, c | p in s.data ensures ForkedOnce(s.data[p], c) {
      assert ForksAgree(s.data, p, c);
    }
  }

  lemma PlainEntrySameLineage(d: Deltas, s: System, b: ContextId, data: EntryData)
    requires Lineage(d, s) && b in s.data && Plain(data)
    ensures SameLineage(s.data, AppendEntry(s, b, data).data)
    ensures forall p, c :: p in s.data ==> ForkedOnce(AppendEntry(s, b, data).data[p], c)
  {
    var s1 := AppendEntry(s, b, data);
    var e := LogEntry(b, |s.data[b]|, data);
    LogsAreForkedOnce(d, s);
    hide Lineage;
    forall c ensures ForkedOnce(s.data[b] + [e], c) {
      PlainEntryKeepsLog(s.data, b, e, c);
    }
    PlainEntryKeepsLog(s.data, b, e, b);
    hide ForkedOnce;
    assert forall p :: p in s.data && p != b ==> s1.data[p] == s.data[p];
  }

  lemma SameLineageKeeps(d: Deltas, s: System, s1: System)
    requires Lineage(d, s) && SameLineage(s.data, s1.data)
    requires forall p, c :: p in s.data ==> ForkedOnce(s1.data[p], c)
    requires s1.order == s.order && s1.tree == s.tree && s1.contexts.Keys <= s.contexts.Keys
    requires forall c :: c in s1.contexts ==> s1.contexts[c].parents == s.contexts[c].parents
    ensures Lineage(d, s1)
  {
    forall p, c | p in s1.data ensures ForksAgree(s1.data, p, c) {
      assert ForksAgree(s.data, p, c);
    }
    forall c | c in s1.data ensures WellBorn(d, s1.order, s1.data, c) {
      assert WellBorn(d, s.order, s.data, c);
      WellBornGrows(d, s.order, s.data, s1.order, s1.data, c);
    }
  }

  lemma PlainEntryKeeps(d: Deltas, s: System, b: ContextId, data: EntryData, s1: System)
    requires Lineage(d, s) && b in s.data && Plain(data)
    requires s1 == AppendEntry(s, b, data).(contexts := s1.contexts)
    requires s1.contexts.Keys <= s.contexts.Keys
    requires forall c :: c in s1.contexts ==> s1.contexts[c].parents == s.contexts[c].parents
    ensures Lineage(d, s1) && Extends(s.data, s1.data)
  {
    PlainEntrySameLineage(d, s, b, data);
    SameLineageKeeps(d, s, s1);
  }

  /******* Creation *******/

  lemma ForkGrowsLogs(s: System, ids: seq<ContextId>, child: ContextId, x: Ctx, s1: System)
    requires WellKeyed(s) && child !in s.data && Forked(s, ids, child, x, s1)
    ensures Extends(s.data, s1.data)
  {
  }

  lemma ForkWellBorn(d: Deltas, s: System, ids: seq<ContextId>, child: ContextId, x: Ctx, s1: System)
    requires Inv(d, s) && child !in s.data && Forked(s, ids, child, x, s1)
    requires NoDuplicates(ids) && forall b :: b in ids ==> b in s.contexts && Live(s, b)
    requires x.parents == Snapshots(s, ids)
    ensures WellBorn(d, s1.order, s1.data, child)
    ensures Parents(s1.data[child]) == ids && Captured(s1.data[child]) == x.parents
  {
    forall i | 0 <= i < |ids|
      ensures Before(s1.order, ids[i], child) && CapturedAtFork(d, s1.data[ids[i]], child, x.parents[i])
    {
      var p := ids[i];
      var n := |s.data[p]|;
      assert Refined(d, p, s.data[p], LiveCtx(s, p));
      assert s1.data[p][..n] == s.data[p];
      assert IsFork(s1.data[p], n, child) && FoldsTo(d, s1.data[p][..n], x.parents[i]);
      assert p in s.order;
      var a :| 0 <= a < |s.order| && s.order[a] == p;
      assert s1.order[a] == p && s1.order[|s.order|] == child;
    }
  }

  lemma NewLogHasNoChildren(child: ContextId, ids: seq<ContextId>, x: Ctx)
    ensures Children(ChildLog(child, ids, x)) == []
    ensures forall j, c :: !IsFork(ChildLog(child, ids, x), j, c)
  {
    var first := LogEntry(child, 0, ContextCreated(ids));
    ChildrenSnoc([], first);
    ChildrenSnoc([first], LogEntry(child, 1, ContextDataInitialized(x.payload, x.userData, x.parents)));
    assert [] + [first] == [first];
  }

  lemma ForkAgrees(d: Deltas, s: System, ids: seq<ContextId>, child: ContextId, x: Ctx, s1: System, p: ContextId,
                   c: ContextId)
    requires Lineage(d, s) && child !in s.data && Forked(s, ids, child, x, s1)
    requires forall b :: b in ids ==> b in s.data
    requires p in s1.data
    requires c in s.data ==> Parents(s1.data[c]) == Parents(s.data[c])
    requires Parents(s1.data[child]) == ids
    ensures ForksAgree(s1.data, p, c) && s1.tree[p] == Children(s1.data[p])
  {
    if p == child {
      NewLogHasNoChildren(child, ids, x);
      if c in s.data {
        assert WellBorn(d, s.order, s.data, c);
        assert p !in Parents(s.data[c]);
      }
    } else {
      assert ForksAgree(s.data, p, c);
      var log, log1 := s.data[p], s1.data[p];
      assert s.tree[p] == Children(log);
      if p in ids {
        assert log1 == log + [LogEntry(p, |log|, ChildContextCreated(child))];
        ChildrenSnoc(log, LogEntry(p, |log|, ChildContextCreated(child)));
      }
      if p !in ids {
        assert log1 == log && s1.tree[p] == s.tree[p];
      }
      assert c in Children(log1) <==> c in Children(log) || (p in ids && c == child);
      if c == child {
        assert c !in s.data && c !in Children(log);
      } else {
        assert c in s1.data <==> c in s.data;
      }
      forall j, k | IsFork(log1, j, c) && IsFork(log1, k, c) ensures j == k {
        if c == child {
          NoForkYet(d, s, p, child);
          assert !IsFork(log, j, c) && !IsFork(log, k, c);
        } else {
          assert IsFork(log, j, c) && IsFork(log, k, c);
        }
      }
    }
  }

  lemma NoForkYet(d: Deltas, s: System, p: ContextId, child: ContextId)
    requires Lineage(d, s) && p in s.data && child !in s.data
    ensures forall j :: !IsFork(s.data[p], j, child)
  {
    assert ForksAgree(s.data, p, child);
    ChildrenAreForks(s.data[p]);
  }

  lemma ForkKeepsWellBorn(d: Deltas, s: System, ids: seq<ContextId>, child: ContextId, x: Ctx, s1: System, c: ContextId)
    requires Inv(d, s) && Lineage(d, s) && child !in s.data && Forked(s, ids, child, x, s1)
    requires NoDuplicates(ids) && forall b :: b in ids ==> b in s.contexts && Live(s, b)
    requires x.parents == Snapshots(s, ids)
    requires c in s.data
    ensures WellBorn(d, s1.order, s1.data, c)
    ensures Parents(s1.data[c]) == Parents(s.data[c]) && Captured(s1.data[c]) == Captured(s.data[c])
  {
    ForkGrowsLogs(s, ids, child, x, s1);
    assert WellBorn(d, s.order, s.data, c);
    WellBornGrows(d, s.order, s.data, s1.order, s1.data, c);
  }

  lemma ForkKeepsLineage(d: Deltas, s: System, ids: seq<ContextId>, child: ContextId, x: Ctx, s1: System)
    requires Inv(d, s) && Lineage(d, s) && child !in s.data && Forked(s, ids, child, x, s1)
    requires NoDuplicates(ids) && forall b :: b in ids ==> b in s.contexts && Live(s, b)
    requires x.parents == Snapshots(s, ids)
    ensures Lineage(d, s1)
  {
    ForkWellBorn(d, s, ids, child, x, s1);
    forall c | c in s1.data
      ensures WellBorn(d, s1.order, s1.data, c)
      ensures c in s1.contexts ==> s1.contexts[c].parents == Captured(s1.data[c])
    {
      if c != child {
        ForkKeepsWellBorn(d, s, ids, child, x, s1, c);
      }
    }
    forall p, c | p in s1.data ensures ForksAgree(s1.data, p, c) && s1.tree[p] == Children(s1.data[p]) {
      if c in s.data {
        ForkKeepsWellBorn(d, s, ids, child, x, s1, c);
      }
      ForkAgrees(d, s, ids, child, x, s1, p, c);
    }
    assert forall p :: p in s1.data ==> ForksAgree(s1.data, p, p);
  }

  /******* Whole runs *******/

  lemma RestartKeepsLineage(d: Deltas, s: System)
    requires Inv(d, s) && Lineage(d, s)
    ensures Lineage(d, Restart(d, s).0)
  {
    RecoveryRebuildsLive(d, s);
    var s1 := Restart(d, s).0;
    forall c | c in s1.data ensures WellBorn(d, s1.order, s1.data, c) {
      assert WellBorn(d, s.order, s.data, c);
    }
    forall p, c | p in s1.data ensures ForksAgree(s1.data, p, c) {
      assert ForksAgree(s.data, p, c);
    }
  }

  ghost predicate ParentsKept(s: System, s1: System) {
    && Extends(s.data, s1.data)
    && forall c :: c in s.contexts && c in s1.contexts ==> s1.contexts[c].parents == s.contexts[c].parents
  }

  lemma CreateKeepsLineage(d: Deltas, s: System, parents: seq<ContextId>, child: ContextId)
    requires Inv(d, s) && Lineage(d, s) && child !in s.data
    ensures Lineage(d, CreateContext(d, s, parents, child).0) && ParentsKept(s, CreateContext(d, s, parents, child).0)
  {
    var ids := Dedup(parents);
    if CreateGuard(s, ids) == Done {
      var x := InitialCtx(d, Snapshots(s, ids));
      var s1 := CreateContext(d, s, parents, child).0;
      CreateForks(d, s, parents, child);
      ForkKeepsLineage(d, s, ids, child, x, s1);
      ForkKeepsParents(s, ids, child, x, s1);
    }
  }

  lemma ForkKeepsParents(s: System, ids: seq<ContextId>, child: ContextId, x: Ctx, s1: System)
    requires WellKeyed(s) && child !in s.data && Forked(s, ids, child, x, s1)
    ensures ParentsKept(s, s1)
  {
    ForkGrowsLogs(s, ids, child, x, s1);
  }

  lemma MessageKeepsLineage(d: Deltas, s: System, c: ContextId, source: SourceId, payload: Value)
    requires Inv(d, s) && Lineage(d, s) && AppendMessage(d, s, c, source, payload).1 != DeltaMismatch
    ensures Lineage(d, AppendMessage(d, s, c, source, payload).0)
    ensures ParentsKept(s, AppendMessage(d, s, c, source, payload).0)
  {
    if Live(s, c) {
      PlainEntryKeeps(d, s, c, MessageSent(source, d.diff(s.contexts[c].payload, payload)),
                      AppendMessage(d, s, c, source, payload).0);
    }
  }

  lemma UserDataKeepsLineage(d: Deltas, s: System, c: ContextId, key: Key, value: Value)
    requires Inv(d, s) && Lineage(d, s) && SetUserData(d, s, c, key, value).1 != DeltaMismatch
    ensures Lineage(d, SetUserData(d, s, c, key, value).0) && ParentsKept(s, SetUserData(d, s, c, key, value).0)
  {
    if Live(s, c) {
      PlainEntryKeeps(d, s, c, UserDataChange(key, d.diff(ReadKey(d, s.contexts[c].userData, key), value)),
                      SetUserData(d, s, c, key, value).0);
    }
  }

  lemma NoteKeepsLineage(d: Deltas, s: System, c: ContextId, note: string)
    requires Inv(d, s) && Lineage(d, s)
    ensures Lineage(d, AppendUserNote(s, c, note).0) && ParentsKept(s, AppendUserNote(s, c, note).0)
  {
    if Live(s, c) {
      PlainEntryKeeps(d, s, c, UserNote(note), AppendUserNote(s, c, note).0);
    }
  }

  lemma CompleteKeepsLineage(d: Deltas, s: System, c: ContextId)
    requires Inv(d, s) && Lineage(d, s)
    ensures Lineage(d, Complete(s, c).0) && ParentsKept(s, Complete(s, c).0)
  {
    if Live(s, c) {
      PlainEntryKeeps(d, s, c, ContextCompleted, Complete(s, c).0);
    }
  }

  lemma StepKeepsLineage(d: Deltas, s: System, op: Op)
    requires Inv(d, s) && Lineage(d, s) && Step(d, s, op).1 != DeltaMismatch
    requires op.OpCreate? ==> op.child !in s.data
    ensures Lineage(d, Step(d, s, op).0) && ParentsKept(s, Step(d, s, op).0)
  {
    match op
    case OpCreate(parents, child) => CreateKeepsLineage(d, s, parents, child);
    case OpRestart =>
      RestartKeepsLineage(d, s);
      RecoveryRebuildsLive(d, s);
    case OpMessage(c, source, payload) => MessageKeepsLineage(d, s, c, source, payload);
    case OpUserData(c, key, value) => UserDataKeepsLineage(d, s, c, key, value);
    case OpNote(c, note) => NoteKeepsLineage(d, s, c, note);
    case OpComplete(c) => CompleteKeepsLineage(d, s, c);
  }

  lemma {:induction false} RunKeepsLineage(d: Deltas, s: System, ops: seq<Op>, s': System)
    requires Inv(d, s) && Lineage(d, s) && Run(d, s, ops, s')
    ensures Inv(d, s') && Lineage(d, s')
    ensures Extends(s.data, s'.data)
    decreases |ops|
  {
    if ops != [] {
      var s1 := Step(d, s, ops[0]).0;
      StepKeeps(d, s, ops[0]);
      StepKeepsLineage(d, s, ops[0]);
      RunKeepsLineage(d, s1, ops[1..], s');
      forall p | p in s.data ensures p in s'.data && s.data[p] <= s'.data[p] {
        assert s.data[p] <= s1.data[p] && s1.data[p] <= s'.data[p];
      }
    }
  }

  /**
   Main theorem: in every reachable state, each parent snapshot of a live child is its parent's log
   replayed up to just before the single entry that names the child.
   */
  lemma SnapshotsAreLogPrefixes(d: Deltas, ops: seq<Op>, s: System, c: ContextId, i: nat)
    requires Run(d, Empty, ops, s) && c in s.contexts && i < |s.contexts[c].parents|
    ensures var sn := s.contexts[c].parents[i];
            && sn.ctxId in s.data
            && CapturedAtFork(d, s.data[sn.ctxId], c, sn)
            && ForkedOnce(s.data[sn.ctxId], c)
  {
    RunKeepsLineage(d, Empty, ops, s);
    assert WellBorn(d, s.order, s.data, c);
    assert ForksAgree(s.data, s.contexts[c].parents[i].ctxId, c);
  }

  /** A live child's snapshots stay what they are, whatever happens to its parents or to the process. */
  lemma SnapshotsNeverChange(d: Deltas, ops: seq<Op>, s: System, more: seq<Op>, s': System, c: ContextId)
    requires Run(d, Empty, ops, s) && Run(d, s, more, s')
    requires c in s.contexts && c in s'.contexts
    ensures s'.contexts[c].parents == s.contexts[c].parents
  {
    RunKeepsLineage(d, Empty, ops, s);
    RunKeepsLineage(d, s, more, s');
    assert WellBorn(d, s.order, s.data, c) && WellBorn(d, s'.order, s'.data, c);
    assert s.data[c] <= s'.data[c];
    assert s.data[c][0] == s'.data[c][0];
    if Parents(s.data[c]) == [] {
      assert Captured(s'.data[c]) == [] == Captured(s.data[c]);
    } else {
      assert s.data[c][1] == s'.data[c][1];
    }
  }

  /** Every step of the path goes from a parent to one of its children in the persisted tree. */
  ghost predicate TreePath(s: System, path: seq<ContextId>) {
    forall i :: 0 <= i < |path| - 1 ==> path[i] in s.tree && path[i + 1] in s.tree[path[i]]
  }

  ghost function Rank(order: seq<ContextId>, c: ContextId): (i: nat)
    requires c in order
    ensures i < |order| && order[i] == c
  {
    var i :| 0 <= i < |order| && order[i] == c;
    i
  }

  lemma TreeEdge(d: Deltas, s: System, p: ContextId, c: ContextId)
    requires Inv(d, s) && Lineage(d, s) && p in s.tree
    ensures c in s.tree[p] <==> c in s.data && p in Parents(s.data[c])
    ensures NoDuplicates(s.tree[p])
    ensures c in s.tree[p] ==> p in s.order && c in s.order && Rank(s.order, p) < Rank(s.order, c)
  {
    forall b ensures ForkedOnce(s.data[p], b) {
      assert ForksAgree(s.data, p, b);
    }
    ChildrenAreForks(s.data[p]);
    assert s.tree[p] == Children(s.data[p]) && ForksAgree(s.data, p, c);
    if c in s.tree[p] {
      assert WellBorn(d, s.order, s.data, c);
      var i :| 0 <= i < |Parents(s.data[c])| && Parents(s.data[c])[i] == p;
      assert Before(s.order, p, c);
    }
  }

  ghost predicate RankGrowsOn(order: seq<ContextId>, p: ContextId, c: ContextId) {
    p in order && c in order && Rank(order, p) < Rank(order, c)
  }

  ghost predicate RankGrows(s: System) {
    forall p, c :: p in s.tree && c in s.tree[p] ==> RankGrowsOn(s.order, p, c)
  }

  lemma {:induction false} RankGrowsAlongPath(s: System, path: seq<ContextId>)
    requires RankGrows(s) && TreePath(s, path) && |path| >= 2
    ensures path[0] in s.order && path[|path| - 1] in s.order
    ensures Rank(s.order, path[0]) < Rank(s.order, path[|path| - 1])
    decreases |path|
  {
    assert RankGrowsOn(s.order, path[0], path[1]);
    if |path| > 2 {
      forall i | 0 <= i < |path[1..]| - 1 ensures path[1..][i] in s.tree && path[1..][i + 1] in s.tree[path[1..][i]] {
        assert path[1..][i] == path[i + 1] && path[1..][i + 1] == path[(i + 1) + 1];
      }
      RankGrowsAlongPath(s, path[1..]);
    }
  }

  lemma TreeRanks(d: Deltas, s: System)
    requires Inv(d, s) && Lineage(d, s)
    ensures RankGrows(s)
  {
    forall p, c | p in s.tree && c in s.tree[p] ensures RankGrowsOn(s.order, p, c) {
      TreeEdge(d, s, p, c);
    }
  }

  lemma TreeIsOneRelation(d: Deltas, s: System)
    requires Inv(d, s) && Lineage(d, s)
    ensures forall p, c :: p in s.tree ==> (c in s.tree[p] <==> c in s.data && p in Parents(s.data[c]))
    ensures forall p :: p in s.tree ==> p in s.data && NoDuplicates(s.tree[p]) && s.tree[p] == Children(s.data[p])
    ensures forall c :: c in s.data ==> NoDuplicates(Parents(s.data[c]))
  {
    forall p, c | p in s.tree ensures c in s.tree[p] <==> c in s.data && p in Parents(s.data[c]) {
      TreeEdge(d, s, p, c);
    }
    forall p | p in s.tree ensures NoDuplicates(s.tree[p]) && s.tree[p] == Children(s.data[p]) {
      TreeEdge(d, s, p, p);
    }
    forall c | c in s.data ensures NoDuplicates(Parents(s.data[c])) {
      assert WellBorn(d, s.order, s.data, c);
    }
  }

  /** Main theorem: logged parents and the persisted tree are one relation, without duplicates or cycles. */
  lemma TreeIsAcyclicRelation(d: Deltas, ops: seq<Op>, s: System)
    requires Run(d, Empty, ops, s)
    ensures forall p, c :: p in s.tree ==> (c in s.tree[p] <==> c in s.data && p in Parents(s.data[c]))
    ensures forall p :: p in s.tree ==> p in s.data && NoDuplicates(s.tree[p]) && s.tree[p] == Children(s.data[p])
    ensures forall c :: c in s.data ==> NoDuplicates(Parents(s.data[c]))
    ensures forall path :: TreePath(s, path) && |path| >= 2 ==> path[0] != path[|path| - 1]
  {
    RunKeepsLineage(d, Empty, ops, s);
    TreeIsOneRelation(d, s);
    TreeRanks(d, s);
    forall path | TreePath(s, path) && |path| >= 2 ensures path[0] != path[|path| - 1] {
      RankGrowsAlongPath(s, path);
    }
  }
}
