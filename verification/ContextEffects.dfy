/**
 What the operations do, read off the maps of the store alone: which call is refused and how, what an
 accepted call writes, what later calls read, and that a completion is for good.
 */
module ContextEffects {
  import opened Options
  import opened ContextLog
  import opened ContextRecovery
  import opened ContextFailures

  predicate OnContext?(op: Op) {
    op.OpMessage? || op.OpUserData? || op.OpNote? || op.OpComplete?
  }

  /******* One call *******/

  /** A call on an unknown context and one on a completed one are refused, each in its way, and write nothing. */
  lemma RefusedIff(d: Deltas, s: System, op: Op)
    requires WellKeyed(s) && OnContext?(op)
    ensures var r := Step(d, s, op);
            && (op.ctx !in s.contexts <==> r.1 == InvalidContextId)
            && (op.ctx in s.contexts && s.contexts[op.ctx].completed <==> r.1 == AlreadyCompleted)
            && (r.1 == InvalidContextId || r.1 == AlreadyCompleted ==> r.0 == s)
  {
  }

  /** The entry that an accepted call appends. */
  ghost predicate Records(d: Deltas, x: Ctx, op: Op, data: EntryData)
    requires OnContext?(op)
  {
    match op
    case OpMessage(_, source, payload) => data == MessageSent(source, d.diff(x.payload, payload))
    case OpUserData(_, key, value) =>
      data == UserDataChange(key, d.diff(if key in x.userData then x.userData[key] else d.none, value))
    case OpNote(_, note) => data == UserNote(note)
    case OpComplete(_) => data == ContextCompleted
  }

  /** The context after an accepted call. */
  ghost predicate Becomes(x: Ctx, op: Op, y: Ctx)
    requires OnContext?(op)
  {
    match op
    case OpMessage(_, _, payload) => y == Ctx(payload, x.userData, x.parents, false)
    case OpUserData(_, key, value) => y == Ctx(x.payload, x.userData[key := value], x.parents, false)
    case OpNote(_, _) => y == x
    case OpComplete(_) => y == Ctx(x.payload, x.userData, x.parents, true)
  }

  /** The logs and contexts of `s1` are those of `s` except for `c`. */
  ghost predicate OnlyChanges(s: System, s1: System, c: ContextId) {
    && s1.order == s.order && s1.tree == s.tree
    && s1.data.Keys == s.data.Keys && s1.contexts.Keys == s.contexts.Keys
    && (forall b :: b in s.data && b != c ==> s1.data[b] == s.data[b])
    && (forall b :: b in s.contexts && b != c ==> s1.contexts[b] == s.contexts[b])
  }

  /** Main theorem: an accepted call appends its one entry, changes the live context to match, and nothing else. */
  lemma AcceptedIsWritten(d: Deltas, s: System, op: Op)
    requires WellKeyed(s) && OnContext?(op) && op.ctx in s.contexts && !s.contexts[op.ctx].completed
    ensures var r, c := Step(d, s, op), op.ctx;
            && (r.1 == Done || r.1 == DeltaMismatch) && (op.OpNote? || op.OpComplete? ==> r.1 == Done)
            && OnlyChanges(s, r.0, c)
            && |r.0.data[c]| == |s.data[c]| + 1 && r.0.data[c][..|s.data[c]|] == s.data[c]
            && r.0.data[c][|s.data[c]|].ctx == c && r.0.data[c][|s.data[c]|].stepIdx == |s.data[c]|
            && Records(d, s.contexts[c], op, r.0.data[c][|s.data[c]|].data)
            && (r.1 == Done ==> Becomes(s.contexts[c], op, r.0.contexts[c]))
            && (r.1 == DeltaMismatch ==> r.0.contexts[c] == s.contexts[c])
  {
    var c := op.ctx;
    match op
    case OpMessage(_, source, payload) => MessageResult(d, s, c, source, payload);
    case OpUserData(_, key, value) => UserDataResult(d, s, c, key, value);
    case OpNote(_, _) =>
    case OpComplete(_) =>
  }

  /** A creation is refused for an unknown parent before a completed one is looked at. */
  lemma CreationRefusedIff(d: Deltas, s: System, parents: seq<ContextId>, child: ContextId)
    requires WellKeyed(s)
    ensures var r := CreateContext(d, s, parents, child);
            var unknown := exists p :: p in parents && p !in s.contexts;
            var completed := exists p :: p in parents && p in s.contexts && s.contexts[p].completed;
            && (r.1 == InvalidContextId <==> unknown)
            && (r.1 == AlreadyCompleted <==> !unknown && completed)
            && (r.1 == Done <==> !unknown && !completed)
            && (r.1 != Done ==> r.0 == s)
  {
    hide PersistChild;
    hide InitialCtx;
    var ids := Dedup(parents);
    assert forall p :: p in ids <==> p in parents;
  }

  ghost predicate OneParent(parents: seq<ContextId>, p: ContextId) {
    p in parents && forall q :: q in parents ==> q == p
  }

  /** A child of one parent, repeated or not, starts with a copy of it; any other child starts empty. */
  lemma ChildStarts(d: Deltas, s: System, parents: seq<ContextId>, child: ContextId)
    requires WellKeyed(s) && child !in s.data && CreateContext(d, s, parents, child).1 == Done
    ensures var s1 := CreateContext(d, s, parents, child).0;
            && child in s1.contexts && !s1.contexts[child].completed
            && (forall p :: OneParent(parents, p) ==>
                  && p in s.contexts
                  && s1.contexts[child].payload == s.contexts[p].payload
                  && s1.contexts[child].userData == s.contexts[p].userData)
            && ((forall p :: !OneParent(parents, p)) ==>
                  s1.contexts[child].payload == d.none && s1.contexts[child].userData == map[])
            && (forall c :: c in s.contexts ==> c in s1.contexts && (c != child ==> s1.contexts[c] == s.contexts[c]))
  {
    CreatedContexts(d, s, parents, child);
    DedupOne(parents);
    hide CreateContext;
    hide Dedup;
    hide OneParent;
    var ids := Dedup(parents);
    assert |Snapshots(s, ids)| == |ids|;
    forall p | OneParent(parents, p) ensures |ids| == 1 && ids[0] == p {
      OnlyOneParent(parents, p, ids[0]);
    }
  }

  /** `ids` are the elements of `parents` without repetitions, in the order of their first occurrence. */
  ghost predicate FirstOccurrences(ids: seq<ContextId>, parents: seq<ContextId>) {
    && (forall c :: c in ids <==> c in parents)
    && (forall i, j :: 0 <= i < j < |ids| ==>
          exists k :: 0 <= k < |parents| && parents[k] == ids[i] && ids[j] !in parents[..k + 1])
  }

  lemma {:induction false} DedupKeepsOrder(parents: seq<ContextId>)
    ensures FirstOccurrences(Dedup(parents), parents)
  {
    if parents != [] {
      var n := |parents| - 1;
      var ids, before := Dedup(parents), Dedup(parents[..n]);
      DedupKeepsOrder(parents[..n]);
      forall i, j | 0 <= i < j < |ids|
        ensures exists k :: 0 <= k < |parents| && parents[k] == ids[i] && ids[j] !in parents[..k + 1]
      {
        if j < |before| {
          var k :| 0 <= k < n && parents[..n][k] == ids[i] && ids[j] !in parents[..n][..k + 1];
          assert parents[..n][..k + 1] == parents[..k + 1];
        } else {
          var k :| 0 <= k < n && parents[..n][k] == ids[i] by {
            assert ids[i] in parents[..n];
          }
          assert ids[j] !in parents[..n];
          assert parents[..k + 1] <= parents[..n];
        }
      }
    }
  }

  /**
   Main theorem: what a creation writes: one entry in the log of every parent; in the child's log its creation from
   the parents, each once, and then, if there are any, the data it starts with, one snapshot per parent.
   */
  lemma CreationIsWritten(d: Deltas, s: System, parents: seq<ContextId>, child: ContextId) returns (ids: seq<ContextId>)
    requires WellKeyed(s) && child !in s.data && CreateContext(d, s, parents, child).1 == Done
    ensures FirstOccurrences(ids, parents) && forall c :: c in ids ==> c in s.contexts
    ensures var s1 := CreateContext(d, s, parents, child).0;
            && s1.order == s.order + [child] && s1.data.Keys == s.data.Keys + {child} && child in s1.contexts
            && (forall c :: c in s.data ==>
                  s1.data[c] == s.data[c] + if c in parents then [LogEntry(c, |s.data[c]|, ChildContextCreated(child))]
                    else [])
            && var x := s1.contexts[child];
               && |x.parents| == |ids|
               && (forall i :: 0 <= i < |ids| ==>
                     x.parents[i] == Snapshot(ids[i], s.contexts[ids[i]].payload, s.contexts[ids[i]].userData))
               && s1.data[child]
                  == [LogEntry(child, 0, ContextCreated(ids))]
                     + (if parents == [] then []
                        else [LogEntry(child, 1, ContextDataInitialized(x.payload, x.userData, x.parents))])
  {
    ids := Dedup(parents);
    DedupKeepsOrder(parents);
    assert parents == [] <==> ids == [] by {
      assert parents != [] ==> parents[0] in ids;
      assert ids != [] ==> ids[0] in parents;
    }
    hide Dedup;
    hide FirstOccurrences;
  }

  lemma OnlyOneParent(parents: seq<ContextId>, p: ContextId, q: ContextId)
    requires OneParent(parents, p) && OneParent(parents, q)
    ensures p == q
  {
  }

  lemma CreatedContexts(d: Deltas, s: System, parents: seq<ContextId>, child: ContextId)
    requires WellKeyed(s) && child !in s.data && CreateContext(d, s, parents, child).1 == Done
    ensures forall c :: c in Dedup(parents) ==> c in s.contexts
    ensures CreateContext(d, s, parents, child).0.contexts
         == s.contexts[child := InitialCtx(d, Snapshots(s, Dedup(parents)))]
  {
    hide InitialCtx;
    hide PersistChild;
    hide Dedup;
  }

  lemma DedupOne(parents: seq<ContextId>)
    ensures |Dedup(parents)| == 1 <==> exists p :: OneParent(parents, p)
    ensures |Dedup(parents)| == 1 ==> OneParent(parents, Dedup(parents)[0])
  {
    var ids := Dedup(parents);
    if |ids| == 1 {
      forall q | q in parents ensures q == ids[0] {
        assert q in ids;
      }
      assert OneParent(parents, ids[0]);
    }
    if p :| OneParent(parents, p) {
      assert p in ids;
      var last := |ids| - 1;
      assert ids[0] in ids && ids[last] in ids;
      assert ids[0] == p == ids[last];
    }
  }

  /******* Completion is for good *******/

  ghost predicate Closed(s: System, c: ContextId, log: seq<LogEntry>) {
    c in s.data && s.data[c] == log && (c in s.contexts ==> s.contexts[c].completed)
  }

  predicate Restarts(ops: seq<Op>) {
    exists i :: 0 <= i < |ops| && ops[i].OpRestart?
  }

  lemma CreateLeavesClosed(d: Deltas, s: System, parents: seq<ContextId>, child: ContextId, c: ContextId,
                           log: seq<LogEntry>)
    requires WellKeyed(s) && child !in s.data && Closed(s, c, log)
    ensures Closed(CreateContext(d, s, parents, child).0, c, log)
    ensures c in CreateContext(d, s, parents, child).0.contexts <==> c in s.contexts
  {
    var ids := Dedup(parents);
    if CreateGuard(s, ids) == Done {
      CreateForks(d, s, parents, child);
      hide CreateContext;
      hide PersistChild;
      assert c !in ids;
    }
  }

  lemma StepLeavesClosed(d: Deltas, s: System, t: System, failed: set<ContextId>, op: Op, c: ContextId,
                         log: seq<LogEntry>)
    requires Follows(d, s, t, failed) && (op.OpCreate? ==> op.child !in s.data) && Closed(s, c, log)
    ensures var s1 := Step(d, s, op).0;
            Closed(s1, c, log) && (c in s1.contexts <==> c in s.contexts && !op.OpRestart?)
  {
    if op.OpRestart? {
      RestartFollows(d, s, t, failed);
      FollowedIsRebuilt(d, s, t, failed);
    } else if op.OpCreate? {
      CreateLeavesClosed(d, s, op.parents, op.child, c, log);
    } else {
      hide Step;
      RefusedIff(d, s, op);
      if op.ctx in s.contexts && !s.contexts[op.ctx].completed {
        AcceptedIsWritten(d, s, op);
      }
    }
  }

  lemma {:induction false} RunLeavesClosed(d: Deltas, s: System, t: System, failed: set<ContextId>, ops: seq<Op>,
                                           s': System, c: ContextId, log: seq<LogEntry>)
    returns (t': System, failed': set<ContextId>)
    requires Follows(d, s, t, failed) && AnyRun(d, s, ops, s') && Closed(s, c, log)
    ensures Follows(d, s', t', failed') && Closed(s', c, log)
    ensures c in s'.contexts <==> c in s.contexts && !Restarts(ops)
    decreases |ops|
  {
    hide Follows;
    hide Closed;
    hide Step;
    if ops == [] {
      t', failed' := t, failed;
    } else {
      StepLeavesClosed(d, s, t, failed, ops[0], c, log);
      var t1 := StepFollows(d, s, t, failed, ops[0]);
      t', failed' := RunLeavesClosed(d, Step(d, s, ops[0]).0, t1, FailedAfter(d, s, ops[0], failed), ops[1..], s', c,
                                     log);
      assert Restarts(ops) <==> ops[0].OpRestart? || Restarts(ops[1..]) by {
        if i :| 0 <= i < |ops| && ops[i].OpRestart? {
          assert i > 0 ==> ops[1..][i - 1].OpRestart?;
        }
        if j :| 0 <= j < |ops[1..]| && ops[1..][j].OpRestart? {
          assert ops[j + 1].OpRestart?;
        }
      }
    }
  }

  /**
   Main theorem: once a completion has been answered, at every later point of any run the log of the context
   ends with it; whatever is asked of the context or wants it as a parent is refused and logs nothing, as
   completed while the process lives and as unknown after a restart; and recovery knows it as completed.
   */
  lemma CompletionIsFinal(d: Deltas, before: seq<Op>, s: System, c: ContextId, after: seq<Op>, s': System)
    requires AnyRun(d, Empty, before, s) && WellKeyed(s) && Step(d, s, OpComplete(c)).1 == Done
    requires AnyRun(d, Step(d, s, OpComplete(c)).0, after, s')
    ensures WellKeyed(s') && !Live(s', c) && c in s.data && c in s'.data
    ensures |s'.data[c]| == |s.data[c]| + 1 && s'.data[c][|s.data[c]|].data == ContextCompleted
    ensures forall op :: OnContext?(op) && op.ctx == c ==>
              Step(d, s', op) == (s', if Restarts(after) then InvalidContextId else AlreadyCompleted)
    ensures forall parents, child :: c in parents ==>
              var r := CreateContext(d, s', parents, child);
              r.0 == s' && (r.1 == InvalidContextId || (r.1 == AlreadyCompleted && !Restarts(after)))
    ensures ReplayAll(d, LogEntries(s')).Ok? && c in ReplayAll(d, LogEntries(s')).value.completed
  {
    var op := OpComplete(c);
    EmptyFollows(d);
    var t := RunFollows(d, Empty, Empty, {}, before, s);
    var failed := Failed(d, Empty, before, {});
    var t1 := StepFollows(d, s, t, failed, op);
    RefusedIff(d, s, op);
    AcceptedIsWritten(d, s, op);
    var s1 := Step(d, s, op).0;
    var t', failed' := RunLeavesClosed(d, s1, t1, failed, after, s', c, s1.data[c]);
    FollowedIsRebuilt(d, s', t', failed');
    LiveInBoth(d, s', t', failed', c);
    hide Step;
    hide CreateContext;
    hide AnyRun;
    hide Follows;
    hide ReplayAll;
    forall op | OnContext?(op) && op.ctx == c
      ensures Step(d, s', op) == (s', if Restarts(after) then InvalidContextId else AlreadyCompleted)
    {
      RefusedIff(d, s', op);
    }
    forall parents, child | c in parents
      ensures var r := CreateContext(d, s', parents, child);
              r.0 == s' && (r.1 == InvalidContextId || (r.1 == AlreadyCompleted && !Restarts(after)))
    {
      CreationRefusedIff(d, s', parents, child);
    }
  }

  /******* What was written last is read *******/

  /** The operation is a message to `c`, or sets its `key`. */
  predicate Rewrites(op: Op, c: ContextId, key: Option<Key>) {
    match key
    case None => op.OpMessage? && op.ctx == c
    case Some(k) => op.OpUserData? && op.ctx == c && op.key == k
  }

  ghost predicate Reads(s: System, c: ContextId, key: Option<Key>, v: Value) {
    c in s.contexts && match key
                       case None => s.contexts[c].payload == v
                       case Some(k) => k in s.contexts[c].userData && s.contexts[c].userData[k] == v
  }

  lemma StepKeepsReading(d: Deltas, s: System, op: Op, c: ContextId, key: Option<Key>, v: Value)
    requires Inv(d, s) && (op.OpCreate? ==> op.child !in s.data) && Step(d, s, op).1 != DeltaMismatch
    requires !Rewrites(op, c, key) && (Live(s, c) ==> Reads(s, c, key, v)) && c in s.data
    ensures var s1 := Step(d, s, op).0;
            c in s1.data && (Live(s1, c) ==> Reads(s1, c, key, v))
  {
    if op.OpRestart? {
      RecoveryRebuildsLive(d, s);
    } else if op.OpCreate? {
      CreationRefusedIff(d, s, op.parents, op.child);
      if CreateContext(d, s, op.parents, op.child).1 == Done {
        CreatedContexts(d, s, op.parents, op.child);
        CreateForks(d, s, op.parents, op.child);
        hide Forked;
        hide CreateContext;
        hide PersistChild;
        hide Inv;
      }
    } else {
      hide Step;
      RefusedIff(d, s, op);
      if op.ctx in s.contexts && !s.contexts[op.ctx].completed {
        AcceptedIsWritten(d, s, op);
      }
    }
  }

  lemma {:induction false} RunKeepsReading(d: Deltas, s: System, ops: seq<Op>, s': System, c: ContextId,
                                           key: Option<Key>, v: Value)
    requires Inv(d, s) && Run(d, s, ops, s') && c in s.data && (Live(s, c) ==> Reads(s, c, key, v))
    requires forall i :: 0 <= i < |ops| ==> !Rewrites(ops[i], c, key)
    ensures Live(s', c) ==> Reads(s', c, key, v)
    decreases |ops|
  {
    hide Inv;
    hide Step;
    hide Reads;
    if ops != [] {
      StepKeepsReading(d, s, ops[0], c, key, v);
      StepKeeps(d, s, ops[0]);
      RunKeepsReading(d, Step(d, s, ops[0]).0, ops[1..], s', c, key, v);
    }
  }

  lemma WrittenIsRead(d: Deltas, s: System, op: Op)
    requires WellKeyed(s) && (op.OpMessage? || op.OpUserData?) && Step(d, s, op).1 == Done
    ensures var s1, c := Step(d, s, op).0, op.ctx;
            && c in s1.data
            && (op.OpMessage? ==> Reads(s1, c, None, op.payload))
            && (op.OpUserData? ==> Reads(s1, c, Some(op.key), op.value))
  {
    RefusedIff(d, s, op);
    AcceptedIsWritten(d, s, op);
    hide Step;
  }

  /**
   Main theorem: in a run without failed checks a live context reads what was written last: the payload of
   the last message, and for every key the last value set, restarts and other contexts notwithstanding.
   */
  lemma LastWrittenIsRead(d: Deltas, before: seq<Op>, s: System, op: Op, after: seq<Op>, s': System)
    requires Run(d, Empty, before, s) && WellKeyed(s) && (op.OpMessage? || op.OpUserData?)
    requires Step(d, s, op).1 == Done && Run(d, Step(d, s, op).0, after, s') && Live(s', op.ctx)
    ensures op.OpMessage? && (forall i :: 0 <= i < |after| ==> !(after[i].OpMessage? && after[i].ctx == op.ctx)) ==>
              s'.contexts[op.ctx].payload == op.payload
    ensures op.OpUserData? && (forall i :: 0 <= i < |after| ==>
                                 !(after[i].OpUserData? && after[i].ctx == op.ctx && after[i].key == op.key)) ==>
              op.key in s'.contexts[op.ctx].userData && s'.contexts[op.ctx].userData[op.key] == op.value
  {
    RunKeeps(d, Empty, before, s);
    hide Inv;
    hide Run;
    StepKeeps(d, s, op);
    var s1 := Step(d, s, op).0;
    var key := if op.OpMessage? then None else Some(op.key);
    WrittenIsRead(d, s, op);
    hide Step;
    if forall i :: 0 <= i < |after| ==> !Rewrites(after[i], op.ctx, key) {
      RunKeepsReading(d, s1, after, s', op.ctx, key, if op.OpMessage? then op.payload else op.value);
    }
  }

  /** The last message that recovery gives back is the last one in the log. */
  lemma {:induction false} LastMessageIff(log: seq<LogEntry>, m: EntryData)
    ensures LastMessage(log) == Some(m) <==>
            m.MessageSent? && exists i :: 0 <= i < |log| && log[i].data == m
                                          && forall j :: i < j < |log| ==> !log[j].data.MessageSent?
    ensures LastMessage(log) == None <==> forall i :: 0 <= i < |log| ==> !log[i].data.MessageSent?
  {
    if log != [] {
      var n := |log| - 1;
      LastMessageIff(log[..n], m);
      if !log[n].data.MessageSent? {
        assert forall i :: 0 <= i < n ==> log[..n][i] == log[i];
      }
    }
  }
}
