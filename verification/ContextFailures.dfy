/**
 Runs in which any number of delta checks fail. A failed check leaves its entry in the log, so the live
 context and its log part; everything else goes on, and a restart brings the two together again.
 */
module ContextFailures {
  import opened Options
  import opened ContextLog
  import opened ContextRecovery

  /** Child ids are fresh; everything else may happen, failed delta checks included. */
  ghost predicate AnyRun(d: Deltas, s: System, ops: seq<Op>, s': System)
    decreases |ops|
  {
    if ops == [] then s' == s
    else
      && WellKeyed(s)
      && (ops[0].OpCreate? ==> ops[0].child !in s.data)
      && AnyRun(d, Step(d, s, ops[0]).0, ops[1..], s')
  }

  function FailedAfter(d: Deltas, s: System, op: Op, failed: set<ContextId>): set<ContextId>
    requires WellKeyed(s)
  {
    if op.OpRestart? then {}
    else if (op.OpMessage? || op.OpUserData?) && Step(d, s, op).1 == DeltaMismatch then failed + {op.ctx}
    else failed
  }

  /** The contexts with a failed delta check since the last restart. */
  ghost function Failed(d: Deltas, s: System, ops: seq<Op>, failed: set<ContextId>): set<ContextId>
    decreases |ops|
  {
    if ops == [] || !WellKeyed(s) then failed
    else Failed(d, Step(d, s, ops[0]).0, ops[1..], FailedAfter(d, s, ops[0], failed))
  }

  predicate SameFrame(x: Ctx, y: Ctx) {
    x.completed == y.completed && x.parents == y.parents
  }

  /** The two stores differ only in what the failed contexts hold. */
  ghost predicate Mirrors(s: System, t: System, failed: set<ContextId>) {
    && t == s.(contexts := t.contexts)
    && t.contexts.Keys == s.contexts.Keys
    && (forall c :: c in s.contexts ==> SameFrame(s.contexts[c], t.contexts[c]))
    && (forall c :: c in s.contexts && c !in failed ==> s.contexts[c] == t.contexts[c])
  }

  /** The store `t` is what the logs of `s` say. */
  ghost predicate Follows(d: Deltas, s: System, t: System, failed: set<ContextId>) {
    Inv(d, t) && Mirrors(s, t, failed)
  }

  /** One entry in the log of `c`, and the states that the live store and the logs give the context. */
  lemma EntryMirrors(s: System, t: System, failed: set<ContextId>, c: ContextId, data: EntryData, x: Ctx, y: Ctx,
                     failed1: set<ContextId>)
    requires Mirrors(s, t, failed) && c in s.contexts && c in s.data && SameFrame(x, y)
    requires failed <= failed1 && (c !in failed1 ==> x == y)
    ensures Mirrors(Instead(AppendEntry(s, c, data), c, x), Instead(AppendEntry(t, c, data), c, y), failed1)
  {
  }

  lemma MessageResult(d: Deltas, s: System, c: ContextId, source: SourceId, payload: Value)
    requires WellKeyed(s) && Live(s, c)
    ensures var x := s.contexts[c];
            var delta := d.diff(x.payload, payload);
            var r, data := AppendMessage(d, s, c, source, payload), MessageSent(source, delta);
            if d.apply(x.payload, delta) != payload then
              r.1 == DeltaMismatch && r.0 == Instead(AppendEntry(s, c, data), c, x)
            else
              r.1 == Done && r.0 == Instead(AppendEntry(s, c, data), c, x.(payload := d.apply(x.payload, delta)))
  {
    SameUpdate(s, c, MessageSent(source, d.diff(s.contexts[c].payload, payload)));
  }

  lemma UserDataResult(d: Deltas, s: System, c: ContextId, key: Key, value: Value)
    requires WellKeyed(s) && Live(s, c)
    ensures var x := s.contexts[c];
            var prev := ReadKey(d, x.userData, key);
            var delta := d.diff(prev, value);
            var r, data := SetUserData(d, s, c, key, value), UserDataChange(key, delta);
            if d.apply(prev, delta) != value then
              r.1 == DeltaMismatch && r.0 == Instead(AppendEntry(s, c, data), c, x)
            else
              r.1 == Done
                && r.0 == Instead(AppendEntry(s, c, data), c, x.(userData := x.userData[key := d.apply(prev, delta)]))
  {
    SameUpdate(s, c, UserDataChange(key, d.diff(ReadKey(d, s.contexts[c].userData, key), value)));
  }

  lemma DeadIsRefused(d: Deltas, s: System, op: Op)
    requires WellKeyed(s) && (op.OpMessage? || op.OpUserData? || op.OpNote? || op.OpComplete?) && !Live(s, op.ctx)
    ensures Step(d, s, op).0 == s && Step(d, s, op).1 != Done && Step(d, s, op).1 != DeltaMismatch
  {
  }

  lemma LiveInBoth(d: Deltas, s: System, t: System, failed: set<ContextId>, c: ContextId)
    requires Follows(d, s, t, failed)
    ensures WellKeyed(s) && (Live(s, c) <==> Live(t, c))
    ensures Live(s, c) ==>
              c in s.data && SameFrame(s.contexts[c], t.contexts[c])
              && (c !in failed ==> s.contexts[c] == t.contexts[c])
  {
  }

  /** Appending any message whatever its delta moves the logged state by that delta. */
  lemma MessageFollows(d: Deltas, s: System, t: System, failed: set<ContextId>, c: ContextId, source: SourceId,
                       payload: Value) returns (t1: System)
    requires Follows(d, s, t, failed)
    ensures var op := OpMessage(c, source, payload);
            WellKeyed(s) && Follows(d, Step(d, s, op).0, t1, FailedAfter(d, s, op, failed))
  {
    var op := OpMessage(c, source, payload);
    LiveInBoth(d, s, t, failed, c);
    if !Live(s, c) {
      DeadIsRefused(d, s, op);
      t1 := t;
    } else {
      hide Inv;
      hide Mirrors;
      hide AppendMessage;
      hide AppendEntry;
      var x, y := s.contexts[c], t.contexts[c];
      var delta := d.diff(x.payload, payload);
      var data := MessageSent(source, delta);
      MessageResult(d, s, c, source, payload);
      MessageEntryKeeps(d, t, c, source, delta);
      var y1 := y.(payload := d.apply(y.payload, delta));
      t1 := Instead(AppendEntry(t, c, data), c, y1);
      var x1 := if d.apply(x.payload, delta) != payload then x else x.(payload := d.apply(x.payload, delta));
      EntryMirrors(s, t, failed, c, data, x1, y1, FailedAfter(d, s, op, failed));
    }
  }

  /** Putting back what is there changes nothing. */
  lemma SameUpdate(s: System, c: ContextId, data: EntryData)
    requires c in s.contexts && c in s.data
    ensures Instead(AppendEntry(s, c, data), c, s.contexts[c]) == AppendEntry(s, c, data)
  {
    assert s.contexts[c := s.contexts[c]] == s.contexts;
  }

  lemma UserDataFollows(d: Deltas, s: System, t: System, failed: set<ContextId>, c: ContextId, key: Key, value: Value)
    returns (t1: System)
    requires Follows(d, s, t, failed)
    ensures var op := OpUserData(c, key, value);
            WellKeyed(s) && Follows(d, Step(d, s, op).0, t1, FailedAfter(d, s, op, failed))
  {
    var op := OpUserData(c, key, value);
    LiveInBoth(d, s, t, failed, c);
    if !Live(s, c) {
      DeadIsRefused(d, s, op);
      t1 := t;
    } else {
      hide Inv;
      hide Mirrors;
      hide SetUserData;
      hide AppendEntry;
      var x, y := s.contexts[c], t.contexts[c];
      var prev := ReadKey(d, x.userData, key);
      var delta := d.diff(prev, value);
      var data := UserDataChange(key, delta);
      UserDataResult(d, s, c, key, value);
      UserDataEntryKeeps(d, t, c, key, delta);
      var y1 := y.(userData := y.userData[key := d.apply(ReadKey(d, y.userData, key), delta)]);
      t1 := Instead(AppendEntry(t, c, data), c, y1);
      var x1 := if d.apply(prev, delta) != value then x else x.(userData := x.userData[key := d.apply(prev, delta)]);
      EntryMirrors(s, t, failed, c, data, x1, y1, FailedAfter(d, s, op, failed));
    }
  }

  lemma NoteFollows(d: Deltas, s: System, t: System, failed: set<ContextId>, c: ContextId, note: string)
    returns (t1: System)
    requires Follows(d, s, t, failed)
    ensures Follows(d, AppendUserNote(s, c, note).0, t1, failed)
  {
    NoteKeeps(d, t, c, note);
    t1 := AppendUserNote(t, c, note).0;
    hide Inv;
  }

  lemma CompleteFollows(d: Deltas, s: System, t: System, failed: set<ContextId>, c: ContextId) returns (t1: System)
    requires Follows(d, s, t, failed)
    ensures Follows(d, Complete(s, c).0, t1, failed)
  {
    CompleteKeeps(d, t, c);
    LiveInBoth(d, s, t, failed, c);
    t1 := Complete(t, c).0;
    hide Inv;
    if !Live(s, c) {
      DeadIsRefused(d, s, OpComplete(c));
    } else {
      var x, y := s.contexts[c].(completed := true), t.contexts[c].(completed := true);
      assert Complete(s, c).0 == Instead(AppendEntry(s, c, ContextCompleted), c, x);
      assert t1 == Instead(AppendEntry(t, c, ContextCompleted), c, y);
      hide Mirrors;
      hide AppendEntry;
      EntryMirrors(s, t, failed, c, ContextCompleted, x, y, failed);
    }
  }

  lemma ForkedMirrors(s: System, t: System, failed: set<ContextId>, ids: seq<ContextId>, child: ContextId, x: Ctx,
                      s1: System)
    requires WellKeyed(s) && WellKeyed(t) && Mirrors(s, t, failed) && child !in s.data && Forked(s, ids, child, x, s1)
    ensures var t1 := s1.(contexts := t.contexts[child := x]);
            Forked(t, ids, child, x, t1) && Mirrors(s1, t1, failed)
  {
  }

  /** A child starts from the live parents, and its own log says so. */
  lemma CreateFollows(d: Deltas, s: System, t: System, failed: set<ContextId>, parents: seq<ContextId>,
                      child: ContextId)
    returns (t1: System)
    requires Follows(d, s, t, failed) && child !in s.data
    ensures Follows(d, CreateContext(d, s, parents, child).0, t1, failed)
  {
    var ids := Dedup(parents);
    LiveInBoth(d, s, t, failed, child);
    if CreateGuard(s, ids) != Done {
      t1 := t;
    } else {
      var x, s1 := InitialCtx(d, Snapshots(s, ids)), CreateContext(d, s, parents, child).0;
      CreateForks(d, s, parents, child);
      forall b | b in ids ensures Live(t, b) {
        LiveInBoth(d, s, t, failed, b);
      }
      t1 := s1.(contexts := t.contexts[child := x]);
      assert |Snapshots(s, ids)| == |ids|;
      hide CreateContext;
      hide PersistChild;
      hide Forked;
      hide Mirrors;
      ForkedMirrors(s, t, failed, ids, child, x, s1);
      ForkKeeps(d, t, ids, child, x, t1);
    }
  }

  /** Recovery goes by the logs alone, so it does not raise, and afterwards no context differs from its log. */
  lemma RestartFollows(d: Deltas, s: System, t: System, failed: set<ContextId>)
    requires Follows(d, s, t, failed)
    ensures Restart(d, s).1 == Done && Restart(d, s).0 == Restart(d, t).0
    ensures Follows(d, Restart(d, s).0, Restart(d, t).0, {})
  {
    RestartKeeps(d, t);
    assert LogEntries(t) == LogEntries(s);
  }

  lemma StepFollows(d: Deltas, s: System, t: System, failed: set<ContextId>, op: Op) returns (t1: System)
    requires Follows(d, s, t, failed) && (op.OpCreate? ==> op.child !in s.data)
    ensures Follows(d, Step(d, s, op).0, t1, FailedAfter(d, s, op, failed)) && Step(d, s, op).1 != CorruptLog
  {
    hide Follows;
    hide Inv;
    match op
    case OpCreate(parents, child) => t1 := CreateFollows(d, s, t, failed, parents, child);
    case OpMessage(c, source, payload) => t1 := MessageFollows(d, s, t, failed, c, source, payload);
    case OpUserData(c, key, value) => t1 := UserDataFollows(d, s, t, failed, c, key, value);
    case OpNote(c, note) => t1 := NoteFollows(d, s, t, failed, c, note);
    case OpComplete(c) => t1 := CompleteFollows(d, s, t, failed, c);
    case OpRestart =>
      RestartFollows(d, s, t, failed);
      t1 := Restart(d, t).0;
  }

  lemma {:induction false} RunFollows(d: Deltas, s: System, t: System, failed: set<ContextId>, ops: seq<Op>, s': System)
    returns (t': System)
    requires Follows(d, s, t, failed) && AnyRun(d, s, ops, s')
    ensures Follows(d, s', t', Failed(d, s, ops, failed))
    decreases |ops|
  {
    hide Follows;
    hide Step;
    if ops == [] {
      t' := t;
    } else {
      var t1 := StepFollows(d, s, t, failed, ops[0]);
      t' := RunFollows(d, Step(d, s, ops[0]).0, t1, FailedAfter(d, s, ops[0], failed), ops[1..], s');
    }
  }

  /** What recovery gives back of any store: everything but the contents of the failed contexts. */
  ghost predicate RebuildsLiveBut(s: System, failed: set<ContextId>, r: Replay) {
    && (forall c :: c in r.contexts <==> Live(s, c))
    && (forall c :: c in r.contexts && c !in failed ==> r.contexts[c] == s.contexts[c])
    && (forall c :: c in r.contexts ==> r.contexts[c].parents == s.contexts[c].parents)
    && (forall c :: c in r.completed <==> c in s.data && !Live(s, c))
    && (forall c :: Get(r.lastMessages, c) == if Live(s, c) then LastMessage(LogOf(c, s.data)) else None)
  }

  lemma MirroredIsRebuilt(s: System, t: System, failed: set<ContextId>, r: Replay)
    requires Mirrors(s, t, failed) && RebuildsLive(t, r)
    ensures RebuildsLiveBut(s, failed, r)
  {
    forall c ensures Live(s, c) <==> Live(t, c) {
    }
  }

  lemma FollowedIsRebuilt(d: Deltas, s: System, t: System, failed: set<ContextId>)
    requires Follows(d, s, t, failed)
    ensures var r := ReplayAll(d, LogEntries(s));
            r.Ok? && RebuildsLiveBut(s, failed, r.value)
  {
    RecoveryRebuildsLive(d, t);
    assert LogEntries(t) == LogEntries(s);
    hide Inv;
    hide ReplayAll;
    hide LogEntries;
    MirroredIsRebuilt(s, t, failed, ReplayAll(d, LogEntries(s)).value);
  }

  lemma EmptyFollows(d: Deltas)
    ensures Follows(d, Empty, Empty, {})
  {
  }

  /**
   Main theorem: after any run, whatever delta checks failed in it, recovery raises nothing and rebuilds
   exactly every uncompleted context that has had no failed check since the last restart; of the others it
   rebuilds the parents and the last message.
   */
  lemma RecoveryAfterFailures(d: Deltas, ops: seq<Op>, s: System)
    requires AnyRun(d, Empty, ops, s)
    ensures var r := ReplayAll(d, LogEntries(s));
            r.Ok? && RebuildsLiveBut(s, Failed(d, Empty, ops, {}), r.value)
  {
    EmptyFollows(d);
    var t := RunFollows(d, Empty, Empty, {}, ops, s);
    FollowedIsRebuilt(d, s, t, Failed(d, Empty, ops, {}));
  }
}
