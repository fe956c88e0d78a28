/**
 Replay is confluent, and recovery refines the live store: replaying the persisted logs rebuilds
 exactly the uncompleted live contexts, after every run of store operations and restarts.
 */
module ContextRecovery {
  import opened Options
  import opened StableSort
  import opened ContextLog

  /******* Replay is confluent *******/

  /** What replay has made of one context: its state, its last message, and its next step index. */
  datatype View = View(ctx: Option<Ctx>, last: Option<EntryData>, done: bool, next: nat)

  const Unseen := View(None, None, false, 0)

  ghost function Get<T>(m: map<ContextId, T>, c: ContextId): Option<T> {
    if c in m then Some(m[c]) else None
  }

  ghost function ViewOf(r: Replay, c: ContextId): View {
    View(Get(r.contexts, c), Get(r.lastMessages, c), c in r.completed, if c in r.steps then r.steps[c] + 1 else 0)
  }

  ghost function OnContext(v: View, f: Ctx -> Ctx): Result<View> {
    if v.ctx.None? then Corrupt else Ok(v.(ctx := Some(f(v.ctx.value))))
  }

  /** One entry folded into its own context, with no other context in sight. */
  ghost function FoldEntry(d: Deltas, v: View, e: LogEntry): Result<View> {
    if e.stepIdx != v.next || v.done then Corrupt
    else
      var v := v.(next := v.next + 1);
      match e.data
      case ContextCreated(_) =>
        if v.ctx.Some? then Corrupt else Ok(v.(ctx := Some(Ctx(d.none, map[], [], false))))
      case ContextDataInitialized(payload, userData, parents) =>
        OnContext(v, (x: Ctx) => x.(payload := payload, userData := userData, parents := parents))
      case MessageSent(_, delta) =>
        OnContext(v.(last := Some(e.data)), (x: Ctx) => x.(payload := d.apply(x.payload, delta)))
      case UserDataChange(key, delta) =>
        OnContext(v, (x: Ctx) => x.(userData := x.userData[key := d.apply(ReadKey(d, x.userData, key), delta)]))
      case ContextCompleted =>
        if v.ctx.None? then Corrupt else Ok(v.(ctx := None, last := None, done := true))
      case ChildContextCreated(_) => Ok(v)
      case UserNote(_) => Ok(v)
  }

  ghost function Fold(d: Deltas, log: seq<LogEntry>): Result<View> {
    if log == [] then Ok(Unseen)
    else
      var before := Fold(d, log[..|log| - 1]);
      if before.Corrupt? then Corrupt else FoldEntry(d, before.value, log[|log| - 1])
  }

  lemma FoldSnoc(d: Deltas, log: seq<LogEntry>, e: LogEntry)
    ensures Fold(d, log + [e]) == if Fold(d, log).Corrupt? then Corrupt else FoldEntry(d, Fold(d, log).value, e)
  {
    assert (log + [e])[..|log|] == log;
  }

  lemma EntryOnItsContext(d: Deltas, r: Replay, e: LogEntry)
    ensures ReplayEntry(d, r, e).Ok? <==> FoldEntry(d, ViewOf(r, e.ctx), e).Ok?
    ensures ReplayEntry(d, r, e).Ok? ==>
              ViewOf(ReplayEntry(d, r, e).value, e.ctx) == FoldEntry(d, ViewOf(r, e.ctx), e).value
  {
    match e.data
    case ContextCreated(_) =>
    case ContextDataInitialized(payload, userData, parents) =>
    case MessageSent(_, delta) =>
    case UserDataChange(key, delta) =>
    case ContextCompleted =>
    case ChildContextCreated(_) =>
    case UserNote(_) =>
  }

  lemma EntryOnOtherContexts(d: Deltas, r: Replay, e: LogEntry, c: ContextId)
    requires ReplayEntry(d, r, e).Ok? && c != e.ctx
    ensures ViewOf(ReplayEntry(d, r, e).value, c) == ViewOf(r, c)
  {
    match e.data
    case ContextCreated(_) =>
    case ContextDataInitialized(payload, userData, parents) =>
    case MessageSent(_, delta) =>
    case UserDataChange(key, delta) =>
    case ContextCompleted =>
    case ChildContextCreated(_) =>
    case UserNote(_) =>
  }

  ghost function Own(d: Deltas, es: seq<LogEntry>, c: ContextId): Result<View> {
    Fold(d, Filter(es, OfContext(c)))
  }

  lemma OwnSnoc(d: Deltas, es: seq<LogEntry>, e: LogEntry, c: ContextId)
    ensures Own(d, es + [e], c) == if c != e.ctx || Own(d, es, c).Corrupt? then Own(d, es, c)
                                   else FoldEntry(d, Own(d, es, c).value, e)
  {
    FilterSnoc(es, e, OfContext(c));
    if c == e.ctx {
      FoldSnoc(d, Filter(es, OfContext(c)), e);
    } else {
      assert Filter(es + [e], OfContext(c)) == Filter(es, OfContext(c));
    }
  }

  /**
   Any sequence of entries replays without a raise iff the entries of every single context fold
   without one, and then every context is exactly what its own entries alone make of it.
   */
  lemma {:induction false} ReplayIsPerContext(d: Deltas, es: seq<LogEntry>)
    ensures ReplayAll(d, es).Ok? <==> forall c :: Own(d, es, c).Ok?
    ensures ReplayAll(d, es).Ok? ==> forall c :: Own(d, es, c) == Ok(ViewOf(ReplayAll(d, es).value, c))
  {
    if es == [] {
      forall c ensures Own(d, es, c) == Ok(ViewOf(Blank, c)) {
      }
    } else {
      var init, e := es[..|es| - 1], es[|es| - 1];
      assert es == init + [e];
      ReplayIsPerContext(d, init);
      forall c
        ensures Own(d, es, c) == if c != e.ctx || Own(d, init, c).Corrupt? then Own(d, init, c)
                                 else FoldEntry(d, Own(d, init, c).value, e)
      {
        OwnSnoc(d, init, e, c);
      }
      if ReplayAll(d, init).Ok? {
        ReplayStepIsPerContext(d, es, init, e);
      } else {
        var c :| Own(d, init, c).Corrupt?;
        assert Own(d, es, c).Corrupt?;
      }
    }
  }

  lemma ReplayStepIsPerContext(d: Deltas, es: seq<LogEntry>, init: seq<LogEntry>, e: LogEntry)
    requires es == init + [e] && ReplayAll(d, init).Ok?
    requires forall c :: Own(d, init, c) == Ok(ViewOf(ReplayAll(d, init).value, c))
    ensures ReplayAll(d, es).Ok? <==> forall c :: Own(d, es, c).Ok?
    ensures ReplayAll(d, es).Ok? ==> forall c :: Own(d, es, c) == Ok(ViewOf(ReplayAll(d, es).value, c))
  {
    var r := ReplayAll(d, init).value;
    ReplaySnoc(d, init, e);
    EntryOnItsContext(d, r, e);
    OwnSnoc(d, init, e, e.ctx);
    forall c | c != e.ctx
      ensures Own(d, es, c) == Own(d, init, c)
      ensures ReplayAll(d, es).Ok? ==> ViewOf(ReplayAll(d, es).value, c) == ViewOf(r, c)
    {
      OwnSnoc(d, init, e, c);
      if ReplayAll(d, es).Ok? {
        EntryOnOtherContexts(d, r, e, c);
      }
    }
  }

  /** Two interleavings that agree on every single context recover the same store. */
  lemma ReplayConfluent(d: Deltas, es: seq<LogEntry>, fs: seq<LogEntry>)
    requires forall c :: Filter(es, OfContext(c)) == Filter(fs, OfContext(c))
    ensures ReplayAll(d, es) == ReplayAll(d, fs)
  {
    ReplayIsPerContext(d, es);
    ReplayIsPerContext(d, fs);
    assert forall c :: Own(d, es, c) == Own(d, fs, c);
    if ReplayAll(d, es).Ok? {
      var r, q := ReplayAll(d, es).value, ReplayAll(d, fs).value;
      forall c ensures ViewOf(r, c) == ViewOf(q, c) {
      }
      SameViews(r, q);
    }
  }

  lemma SameViews(r: Replay, q: Replay)
    requires forall c :: ViewOf(r, c) == ViewOf(q, c)
    ensures r == q
  {
    forall c
      ensures c in r.contexts <==> c in q.contexts
      ensures c in r.contexts ==> r.contexts[c] == q.contexts[c]
      ensures c in r.lastMessages <==> c in q.lastMessages
      ensures c in r.lastMessages ==> r.lastMessages[c] == q.lastMessages[c]
      ensures c in r.completed <==> c in q.completed
      ensures c in r.steps <==> c in q.steps
      ensures c in r.steps ==> r.steps[c] == q.steps[c]
    {
      assert ViewOf(r, c) == ViewOf(q, c);
    }
    assert r.contexts == q.contexts;
    assert r.lastMessages == q.lastMessages;
    assert r.steps == q.steps;
  }

  /******* The step-sorted order keeps every log *******/

  ghost predicate OwnLog(log: seq<LogEntry>, c: ContextId) {
    forall i :: 0 <= i < |log| ==> log[i].ctx == c && log[i].stepIdx == i
  }

  lemma {:induction false} ConcatProjects(order: seq<ContextId>, data: Logs, c: ContextId)
    requires forall i, j :: 0 <= i < j < |order| ==> order[i] != order[j]
    requires forall b :: b in order ==> b in data && OwnLog(data[b], b)
    ensures Filter(Concat(order, data), OfContext(c)) == if c in order then data[c] else []
  {
    if order != [] {
      var init, b := order[..|order| - 1], order[|order| - 1];
      assert order == init + [b];
      ConcatProjects(init, data, c);
      FilterAppend(Concat(init, data), data[b], OfContext(c));
      if b == c {
        FilterAll(data[b], OfContext(c));
      } else {
        FilterNone(data[b], OfContext(c));
      }
    }
  }

  /** Sorting all entries by step index leaves each context's entries in their log order. */
  lemma LogEntriesProject(s: System, c: ContextId)
    requires forall i, j :: 0 <= i < j < |s.order| ==> s.order[i] != s.order[j]
    requires forall b :: b in s.order <==> b in s.data
    requires forall b :: b in s.data ==> OwnLog(s.data[b], b)
    ensures Filter(LogEntries(s), OfContext(c)) == LogOf(c, s.data)
  {
    ConcatProjects(s.order, s.data, c);
    SortFilter(Concat(s.order, s.data), StepOf(), OfContext(c));
    SortOfSorted(LogOf(c, s.data), StepOf());
  }

  /******* The refinement invariant *******/

  /** The last message of a log, read off the log itself. */
  ghost function LastMessage(log: seq<LogEntry>): Option<EntryData> {
    if log == [] then None
    else if log[|log| - 1].data.MessageSent? then Some(log[|log| - 1].data)
    else LastMessage(log[..|log| - 1])
  }

  ghost predicate Live(s: System, c: ContextId) {
    c in s.contexts && !s.contexts[c].completed
  }

  ghost function LiveCtx(s: System, c: ContextId): Option<Ctx> {
    if Live(s, c) then Some(s.contexts[c]) else None
  }

  /** The log of a context folds to its live state, or to a completion if it is not live any more. */
  ghost predicate Refined(d: Deltas, c: ContextId, log: seq<LogEntry>, live: Option<Ctx>) {
    && |log| > 0
    && OwnLog(log, c)
    && Fold(d, log) == Ok(View(live, if live.Some? then LastMessage(log) else None, live.None?, |log|))
  }

  ghost predicate Inv(d: Deltas, s: System) {
    && WellKeyed(s)
    && (forall i, j :: 0 <= i < j < |s.order| ==> s.order[i] != s.order[j])
    && (forall c :: c in s.order <==> c in s.data)
    && forall c :: c in s.data ==> Refined(d, c, s.data[c], LiveCtx(s, c))
  }

  /** What recovery must give back: the uncompleted contexts and each one's last message. */
  ghost predicate RebuildsLive(s: System, r: Replay) {
    && (forall c :: c in r.contexts <==> Live(s, c))
    && (forall c :: c in r.contexts ==> r.contexts[c] == s.contexts[c])
    && (forall c :: c in r.completed <==> c in s.data && !Live(s, c))
    && (forall c :: Get(r.lastMessages, c) == if Live(s, c) then LastMessage(LogOf(c, s.data)) else None)
  }

  lemma RecoveryRebuildsLive(d: Deltas, s: System)
    requires Inv(d, s)
    ensures ReplayAll(d, LogEntries(s)).Ok?
    ensures RebuildsLive(s, ReplayAll(d, LogEntries(s)).value)
  {
    var es := LogEntries(s);
    forall c
      ensures Own(d, es, c).Ok?
      ensures Own(d, es, c) == Ok(if c !in s.data then Unseen
                                  else if Live(s, c)
                                    then View(Some(s.contexts[c]), LastMessage(s.data[c]), false, |s.data[c]|)
                                  else View(None, None, true, |s.data[c]|))
    {
      assert forall b :: b in s.data ==> Refined(d, b, s.data[b], LiveCtx(s, b));
      LogEntriesProject(s, c);
    }
    ReplayIsPerContext(d, es);
    var r := ReplayAll(d, es).value;
    forall c
      ensures c in r.contexts <==> Live(s, c)
      ensures c in r.contexts ==> r.contexts[c] == s.contexts[c]
      ensures c in r.completed <==> c in s.data && !Live(s, c)
      ensures Get(r.lastMessages, c) == if Live(s, c) then LastMessage(LogOf(c, s.data)) else None
    {
      assert Own(d, es, c) == Ok(ViewOf(r, c));
    }
  }

  /******* Every operation keeps it *******/

  /** One more entry in the log of `c`, with the change of the live context that the fold also makes. */
  lemma AppendKeeps(d: Deltas, s: System, c: ContextId, data: EntryData, x: Ctx)
    requires Inv(d, s) && Live(s, c)
    requires var n := |s.data[c]|;
             var e := LogEntry(c, n, data);
             FoldEntry(d, View(Some(s.contexts[c]), LastMessage(s.data[c]), false, n), e)
             == Ok(if x.completed then View(None, None, true, n + 1)
                   else View(Some(x), LastMessage(s.data[c] + [e]), false, n + 1))
    ensures Inv(d, AppendEntry(s, c, data).(contexts := s.contexts[c := x]))
  {
    var e := LogEntry(c, |s.data[c]|, data);
    var s1 := AppendEntry(s, c, data).(contexts := s.contexts[c := x]);
    assert Refined(d, c, s.data[c], LiveCtx(s, c));
    AppendRefines(d, c, s.data[c], View(Some(s.contexts[c]), LastMessage(s.data[c]), false, |s.data[c]|), e,
                  LiveCtx(s1, c));
    OneLogGrows(d, s, c, s.data[c] + [e], x, s1);
  }

  lemma OneLogGrows(d: Deltas, s: System, c: ContextId, log: seq<LogEntry>, x: Ctx, s1: System)
    requires Inv(d, s) && Live(s, c) && s1 == s.(data := s.data[c := log], contexts := s.contexts[c := x])
    requires Refined(d, c, log, if x.completed then None else Some(x))
    ensures Inv(d, s1)
  {
    forall b | b in s1.data ensures Refined(d, b, s1.data[b], LiveCtx(s1, b)) {
      if b != c {
        assert Refined(d, b, s.data[b], LiveCtx(s, b)) && LiveCtx(s1, b) == LiveCtx(s, b);
      }
    }
  }

  lemma AppendRefines(d: Deltas, c: ContextId, log: seq<LogEntry>, v: View, e: LogEntry, live: Option<Ctx>)
    requires OwnLog(log, c) && Fold(d, log) == Ok(v) && e.ctx == c && e.stepIdx == |log|
    requires FoldEntry(d, v, e)
             == Ok(View(live, if live.Some? then LastMessage(log + [e]) else None, live.None?, |log| + 1))
    ensures Refined(d, c, log + [e], live)
  {
    FoldSnoc(d, log, e);
  }

  lemma LastMessageSnoc(log: seq<LogEntry>, e: LogEntry)
    ensures LastMessage(log + [e]) == if e.data.MessageSent? then Some(e.data) else LastMessage(log)
  {
    assert (log + [e])[..|log|] == log;
  }

  /** The store with `x` in place of the live context `c`. */
  function Instead(s: System, c: ContextId, x: Ctx): System {
    s.(contexts := s.contexts[c := x])
  }

  /** The context as it would be with the logged delta applied to its payload. */
  function WithPayloadDelta(d: Deltas, x: Ctx, payload: Value): Ctx {
    x.(payload := d.apply(x.payload, d.diff(x.payload, payload)))
  }

  function WithKeyDelta(d: Deltas, x: Ctx, key: Key, value: Value): Ctx {
    var prev := ReadKey(d, x.userData, key);
    x.(userData := x.userData[key := d.apply(prev, d.diff(prev, value))])
  }

  /** Whatever its delta, a logged message moves the context to what the delta makes of it. */
  lemma MessageEntryKeeps(d: Deltas, s: System, c: ContextId, source: SourceId, delta: Delta)
    requires Inv(d, s) && Live(s, c)
    ensures var x := s.contexts[c];
            Inv(d, Instead(AppendEntry(s, c, MessageSent(source, delta)), c, x.(payload := d.apply(x.payload, delta))))
  {
    var x, data := s.contexts[c], MessageSent(source, delta);
    assert Refined(d, c, s.data[c], LiveCtx(s, c));
    LastMessageSnoc(s.data[c], LogEntry(c, |s.data[c]|, data));
    AppendKeeps(d, s, c, data, x.(payload := d.apply(x.payload, delta)));
  }

  lemma UserDataEntryKeeps(d: Deltas, s: System, c: ContextId, key: Key, delta: Delta)
    requires Inv(d, s) && Live(s, c)
    ensures var x := s.contexts[c];
            var value := d.apply(ReadKey(d, x.userData, key), delta);
            Inv(d, Instead(AppendEntry(s, c, UserDataChange(key, delta)), c, x.(userData := x.userData[key := value])))
  {
    var x, data := s.contexts[c], UserDataChange(key, delta);
    assert Refined(d, c, s.data[c], LiveCtx(s, c));
    LastMessageSnoc(s.data[c], LogEntry(c, |s.data[c]|, data));
    AppendKeeps(d, s, c, data, x.(userData := x.userData[key := d.apply(ReadKey(d, x.userData, key), delta)]));
  }

  lemma MessageKeeps(d: Deltas, s: System, c: ContextId, source: SourceId, payload: Value)
    requires Inv(d, s) && AppendMessage(d, s, c, source, payload).1 != DeltaMismatch
    ensures Inv(d, AppendMessage(d, s, c, source, payload).0)
  {
    if Live(s, c) {
      MessageEntryKeeps(d, s, c, source, d.diff(s.contexts[c].payload, payload));
    }
  }

  lemma UserDataKeeps(d: Deltas, s: System, c: ContextId, key: Key, value: Value)
    requires Inv(d, s) && SetUserData(d, s, c, key, value).1 != DeltaMismatch
    ensures Inv(d, SetUserData(d, s, c, key, value).0)
  {
    if Live(s, c) {
      UserDataEntryKeeps(d, s, c, key, d.diff(ReadKey(d, s.contexts[c].userData, key), value));
    }
  }

  lemma NoteKeeps(d: Deltas, s: System, c: ContextId, note: string)
    requires Inv(d, s)
    ensures Inv(d, AppendUserNote(s, c, note).0)
  {
    if Live(s, c) {
      assert Refined(d, c, s.data[c], LiveCtx(s, c));
      LastMessageSnoc(s.data[c], LogEntry(c, |s.data[c]|, UserNote(note)));
      AppendKeeps(d, s, c, UserNote(note), s.contexts[c]);
      assert s.contexts[c := s.contexts[c]] == s.contexts;
    }
  }

  lemma CompleteKeeps(d: Deltas, s: System, c: ContextId)
    requires Inv(d, s)
    ensures Inv(d, Complete(s, c).0)
  {
    if Live(s, c) {
      assert Refined(d, c, s.data[c], LiveCtx(s, c));
      AppendKeeps(d, s, c, ContextCompleted, s.contexts[c].(completed := true));
    }
  }

  /** The fork entry in a parent's log does not change what the parent folds to. */
  lemma ForkEntryInvisible(d: Deltas, s: System, c: ContextId, child: ContextId)
    requires Inv(d, s) && Live(s, c)
    ensures var n := |s.data[c]|;
            var log := s.data[c] + [LogEntry(c, n, ChildContextCreated(child))];
            Fold(d, log) == Ok(View(Some(s.contexts[c]), LastMessage(log), false, n + 1))
  {
    var e := LogEntry(c, |s.data[c]|, ChildContextCreated(child));
    assert Refined(d, c, s.data[c], LiveCtx(s, c));
    FoldSnoc(d, s.data[c], e);
    LastMessageSnoc(s.data[c], e);
  }

  ghost function ChildLog(child: ContextId, ids: seq<ContextId>, x: Ctx): seq<LogEntry> {
    [LogEntry(child, 0, ContextCreated(ids))]
    + if ids == [] then [] else [LogEntry(child, 1, ContextDataInitialized(x.payload, x.userData, x.parents))]
  }

  /** The child's own first entries fold to the context the caller got. */
  lemma ChildLogFolds(d: Deltas, child: ContextId, ids: seq<ContextId>, x: Ctx)
    requires !x.completed
    requires ids == [] ==> x == Ctx(d.none, map[], [], false)
    ensures var log := ChildLog(child, ids, x);
            Fold(d, log) == Ok(View(Some(x), LastMessage(log), false, |log|))
  {
    var first := LogEntry(child, 0, ContextCreated(ids));
    var second := LogEntry(child, 1, ContextDataInitialized(x.payload, x.userData, x.parents));
    assert [] + [first] == [first];
    FoldSnoc(d, [], first);
    FoldSnoc(d, [first], second);
    LastMessageSnoc([], first);
    LastMessageSnoc([first], second);
  }

  /** What a successful creation does, key by key. */
  ghost predicate Forked(s: System, ids: seq<ContextId>, child: ContextId, x: Ctx, s1: System)
    requires WellKeyed(s)
  {
    && s1.order == s.order + [child]
    && s1.contexts == s.contexts[child := x]
    && s1.data.Keys == s1.tree.Keys == s.data.Keys + {child}
    && s1.data[child] == ChildLog(child, ids, x)
    && s1.tree[child] == []
    && (forall b :: b in s.data && b != child ==>
          s1.data[b] == s.data[b] + if b in ids then [LogEntry(b, |s.data[b]|, ChildContextCreated(child))] else [])
    && (forall b :: b in s.tree && b != child ==> s1.tree[b] == s.tree[b] + if b in ids then [child] else [])
  }

  lemma CreateForks(d: Deltas, s: System, parents: seq<ContextId>, child: ContextId)
    requires WellKeyed(s) && child !in s.data && CreateGuard(s, Dedup(parents)) == Done
    ensures Forked(s, Dedup(parents), child, InitialCtx(d, Snapshots(s, Dedup(parents))),
                   CreateContext(d, s, parents, child).0)
  {
    var ids := Dedup(parents);
    var created := PersistChild(s, ids, child);
    var s1 := CreateContext(d, s, parents, child).0;
    forall b | b in s.data
      ensures created.data[b] == s.data[b]
              + if b in ids then [LogEntry(b, |s.data[b]|, ChildContextCreated(child))] else []
      ensures created.tree[b] == s.tree[b] + if b in ids then [child] else []
    {
    }
    assert created.data.Keys == s.data.Keys + {child};
    assert forall b :: b in s.data ==> s1.data[b] == created.data[b];
  }

  lemma ForkKeepsLog(d: Deltas, s: System, ids: seq<ContextId>, child: ContextId, x: Ctx, s1: System, b: ContextId)
    requires Inv(d, s) && child !in s.data && Forked(s, ids, child, x, s1)
    requires !x.completed && (ids == [] ==> x == Ctx(d.none, map[], [], false))
    requires b in ids ==> Live(s, b)
    requires b in s1.data
    ensures Refined(d, b, s1.data[b], LiveCtx(s1, b))
  {
    if b == child {
      ChildLogFolds(d, child, ids, x);
    } else {
      assert Refined(d, b, s.data[b], LiveCtx(s, b)) && LiveCtx(s1, b) == LiveCtx(s, b);
      if b in ids {
        ForkEntryInvisible(d, s, b, child);
      } else {
        assert s1.data[b] == s.data[b];
      }
    }
  }

  lemma ForkKeeps(d: Deltas, s: System, ids: seq<ContextId>, child: ContextId, x: Ctx, s1: System)
    requires Inv(d, s) && child !in s.data && Forked(s, ids, child, x, s1)
    requires !x.completed && (ids == [] ==> x == Ctx(d.none, map[], [], false))
    requires forall b :: b in ids ==> Live(s, b)
    ensures Inv(d, s1)
  {
    ForkKeepsKeys(s, ids, child, x, s1);
    forall b | b in s1.data ensures Refined(d, b, s1.data[b], LiveCtx(s1, b)) {
      ForkKeepsLog(d, s, ids, child, x, s1, b);
    }
  }

  lemma ForkKeepsKeys(s: System, ids: seq<ContextId>, child: ContextId, x: Ctx, s1: System)
    requires WellKeyed(s) && child !in s.data && Forked(s, ids, child, x, s1)
    requires forall i, j :: 0 <= i < j < |s.order| ==> s.order[i] != s.order[j]
    requires forall c :: c in s.order <==> c in s.data
    ensures WellKeyed(s1)
    ensures forall i, j :: 0 <= i < j < |s1.order| ==> s1.order[i] != s1.order[j]
    ensures forall c :: c in s1.order <==> c in s1.data
  {
    assert forall c :: c in s1.order <==> c in s.order || c == child;
  }

  lemma CreateKeeps(d: Deltas, s: System, parents: seq<ContextId>, child: ContextId)
    requires Inv(d, s) && child !in s.data
    ensures Inv(d, CreateContext(d, s, parents, child).0)
  {
    var ids := Dedup(parents);
    if CreateGuard(s, ids) == Done {
      CreateForks(d, s, parents, child);
      ForkKeeps(d, s, ids, child, InitialCtx(d, Snapshots(s, ids)), CreateContext(d, s, parents, child).0);
    }
  }

  lemma RestartKeeps(d: Deltas, s: System)
    requires Inv(d, s)
    ensures Restart(d, s).1 == Done
    ensures Inv(d, Restart(d, s).0)
  {
    RecoveryRebuildsLive(d, s);
    var s1 := Restart(d, s).0;
    forall c | c in s1.data ensures Refined(d, c, s1.data[c], LiveCtx(s1, c)) {
      assert Refined(d, c, s.data[c], LiveCtx(s, c));
      assert LiveCtx(s1, c) == LiveCtx(s, c);
    }
  }

  lemma StepKeeps(d: Deltas, s: System, op: Op)
    requires Inv(d, s) && Step(d, s, op).1 != DeltaMismatch
    requires op.OpCreate? ==> op.child !in s.data
    ensures Inv(d, Step(d, s, op).0)
    ensures Step(d, s, op).1 != CorruptLog
  {
    match op
    case OpCreate(parents, child) => CreateKeeps(d, s, parents, child);
    case OpMessage(c, source, payload) => MessageKeeps(d, s, c, source, payload);
    case OpUserData(c, key, value) => UserDataKeeps(d, s, c, key, value);
    case OpNote(c, note) => NoteKeeps(d, s, c, note);
    case OpComplete(c) => CompleteKeeps(d, s, c);
    case OpRestart => RestartKeeps(d, s);
  }

  /******* Whole runs *******/

  /** Child ids are fresh, and no call raised on a delta that does not rebuild its value. */
  ghost predicate Run(d: Deltas, s: System, ops: seq<Op>, s': System)
    decreases |ops|
  {
    if ops == [] then s' == s
    else
      && WellKeyed(s)
      && (ops[0].OpCreate? ==> ops[0].child !in s.data)
      && Step(d, s, ops[0]).1 != DeltaMismatch
      && Run(d, Step(d, s, ops[0]).0, ops[1..], s')
  }

  lemma {:induction false} RunKeeps(d: Deltas, s: System, ops: seq<Op>, s': System)
    requires Inv(d, s) && Run(d, s, ops, s')
    ensures Inv(d, s')
    decreases |ops|
  {
    if ops != [] {
      StepKeeps(d, s, ops[0]);
      RunKeeps(d, Step(d, s, ops[0]).0, ops[1..], s');
    }
  }

  /** Main theorem: after any run from an empty store, recovery raises nothing and rebuilds the live store. */
  lemma RecoveryRefinesLiveStore(d: Deltas, ops: seq<Op>, s: System)
    requires Run(d, Empty, ops, s)
    ensures ReplayAll(d, LogEntries(s)).Ok?
    ensures RebuildsLive(s, ReplayAll(d, LogEntries(s)).value)
  {
    RunKeeps(d, Empty, ops, s);
    RecoveryRebuildsLive(d, s);
  }

  /******* Where it stops *******/

  /** A store and its variant in one live context are both rebuilt only if the variant is none. */
  lemma RebuiltInstead(d: Deltas, s: System, c: ContextId, y: Ctx)
    requires Live(s, c) && !y.completed && Inv(d, Instead(s, c, y))
    ensures var r := ReplayAll(d, LogEntries(s));
            r.Ok? && RebuildsLive(Instead(s, c, y), r.value) && (RebuildsLive(s, r.value) <==> y == s.contexts[c])
  {
    var s2 := Instead(s, c, y);
    assert LogEntries(s2) == LogEntries(s);
    RecoveryRebuildsLive(d, s2);
    var r := ReplayAll(d, LogEntries(s)).value;
    assert Live(s2, c);
    assert r.contexts[c] == s2.contexts[c] == y;
    if y == s.contexts[c] {
      assert s2.contexts == s.contexts;
    }
  }

  /**
   A message whose delta fails the check raises after it was logged and changes no live context. Recovery
   still succeeds and rebuilds every other context, but gives this one the payload of the delta, so it
   agrees with the live store iff the delta changes nothing.
   */
  lemma MismatchedMessage(d: Deltas, s: System, c: ContextId, source: SourceId, payload: Value)
    requires Inv(d, s) && AppendMessage(d, s, c, source, payload).1 == DeltaMismatch
    ensures var s1, x := AppendMessage(d, s, c, source, payload).0, s.contexts[c];
            var r, y := ReplayAll(d, LogEntries(s1)), WithPayloadDelta(d, x, payload);
            && s1.contexts == s.contexts
            && r.Ok? && RebuildsLive(Instead(s1, c, y), r.value)
            && (RebuildsLive(s1, r.value) <==> y.payload == x.payload)
  {
    MessageEntryKeeps(d, s, c, source, d.diff(s.contexts[c].payload, payload));
    hide Inv;
    hide RebuildsLive;
    hide LogEntries;
    hide ReplayAll;
    RebuiltInstead(d, AppendMessage(d, s, c, source, payload).0, c, WithPayloadDelta(d, s.contexts[c], payload));
  }

  lemma SameUnderKeyDelta(d: Deltas, x: Ctx, key: Key, value: Value)
    ensures var y := WithKeyDelta(d, x, key, value);
            && y.completed == x.completed && key in y.userData
            && (y == x <==> key in x.userData && x.userData[key] == y.userData[key])
  {
    var y := WithKeyDelta(d, x, key, value);
    assert key in x.userData && x.userData[key] == y.userData[key] ==> x.userData == y.userData;
  }

  /** The same for user data; here the two also differ if the key was absent. */
  lemma MismatchedUserData(d: Deltas, s: System, c: ContextId, key: Key, value: Value)
    requires Inv(d, s) && SetUserData(d, s, c, key, value).1 == DeltaMismatch
    ensures var s1, x := SetUserData(d, s, c, key, value).0, s.contexts[c];
            var r, y := ReplayAll(d, LogEntries(s1)), WithKeyDelta(d, x, key, value);
            && s1.contexts == s.contexts
            && r.Ok? && RebuildsLive(Instead(s1, c, y), r.value)
            && (RebuildsLive(s1, r.value) <==> key in x.userData && x.userData[key] == y.userData[key])
  {
    UserDataEntryKeeps(d, s, c, key, d.diff(ReadKey(d, s.contexts[c].userData, key), value));
    SameUnderKeyDelta(d, s.contexts[c], key, value);
    hide WithKeyDelta;
    hide Inv;
    hide RebuildsLive;
    hide LogEntries;
    hide ReplayAll;
    RebuiltInstead(d, SetUserData(d, s, c, key, value).0, c, WithKeyDelta(d, s.contexts[c], key, value));
  }

  /** A diff library whose deltas all lead to `w`. */
  function Stuck(v: Value, w: Value, delta: Delta): Deltas {
    Deltas(v, (_, _) => delta, (_, _) => w)
  }

  /**
   Both do happen: with such a library a fresh context that is sent its own payload, or set its own
   reading of a key, is recovered as something else than it is.
   */
  lemma MismatchesHappen(v: Value, w: Value, delta: Delta, source: SourceId, key: Key)
    requires v != w
    ensures var d := Stuck(v, w, delta);
            var s := CreateContext(d, Empty, [], 0).0;
            var m, u := AppendMessage(d, s, 0, source, v), SetUserData(d, s, 0, key, v);
            && Run(d, Empty, [OpCreate([], 0)], s)
            && m.1 == DeltaMismatch && u.1 == DeltaMismatch
            && ReplayAll(d, LogEntries(m.0)).Ok? && !RebuildsLive(m.0, ReplayAll(d, LogEntries(m.0)).value)
            && ReplayAll(d, LogEntries(u.0)).Ok? && !RebuildsLive(u.0, ReplayAll(d, LogEntries(u.0)).value)
  {
    var d := Stuck(v, w, delta);
    var s := FreshContext(d);
    RunKeeps(d, Empty, [OpCreate([], 0)], s);
    MismatchedMessage(d, s, 0, source, v);
    MismatchedUserData(d, s, 0, key, v);
  }

  lemma FreshContext(d: Deltas) returns (s: System)
    ensures s == CreateContext(d, Empty, [], 0).0 && Run(d, Empty, [OpCreate([], 0)], s)
    ensures s.contexts == map[0 := Ctx(d.none, map[], [], false)]
  {
    s := CreateContext(d, Empty, [], 0).0;
    assert Dedup([]) == [];
    assert [OpCreate([], 0)][1..] == [];
    assert Run(d, s, [], s);
  }

  /** The store as left by the first of the two writes, with the child as its one log entry makes it. */
  function HalfForked(d: Deltas, s: System, ids: seq<ContextId>, child: ContextId): System
    requires WellKeyed(s)
  {
    Instead(PersistChild(s, ids, child), child, Ctx(d.none, map[], [], false))
  }

  lemma HalfForkKeepsLog(d: Deltas, s: System, ids: seq<ContextId>, child: ContextId, b: ContextId)
    requires Inv(d, s) && child !in s.data && (b in ids ==> Live(s, b)) && b in HalfForked(d, s, ids, child).data
    ensures var s1 := HalfForked(d, s, ids, child);
            Refined(d, b, s1.data[b], LiveCtx(s1, b))
  {
    if b == child {
      FirstEntryFolds(d, child, ids);
    } else {
      assert Refined(d, b, s.data[b], LiveCtx(s, b));
      if b in ids {
        ForkEntryInvisible(d, s, b, child);
      }
    }
  }

  lemma HalfForkKeeps(d: Deltas, s: System, ids: seq<ContextId>, child: ContextId)
    requires Inv(d, s) && child !in s.data && forall b :: b in ids ==> Live(s, b)
    ensures Inv(d, HalfForked(d, s, ids, child))
  {
    hide Refined;
    var s1 := HalfForked(d, s, ids, child);
    assert forall c :: c in s1.order <==> c in s.order || c == child;
    forall b | b in s1.data ensures Refined(d, b, s1.data[b], LiveCtx(s1, b)) {
      HalfForkKeepsLog(d, s, ids, child, b);
    }
  }

  /**
   A process that stops between the two log writes of a child creation: recovery succeeds and rebuilds
   every live context and an empty child, which is the child that was being created iff it has no parents.
   */
  lemma InterruptedCreation(d: Deltas, s: System, parents: seq<ContextId>, child: ContextId)
    requires Inv(d, s) && child !in s.data && CreateGuard(s, Dedup(parents)) == Done
    ensures var s1 := PersistChild(s, Dedup(parents), child);
            var r := ReplayAll(d, LogEntries(s1));
            && r.Ok? && RebuildsLive(HalfForked(d, s, Dedup(parents), child), r.value)
            && child in r.value.contexts
            && (r.value.contexts[child] == CreateContext(d, s, parents, child).0.contexts[child] <==> parents == [])
  {
    var ids := Dedup(parents);
    var s1 := PersistChild(s, ids, child);
    var s2 := HalfForked(d, s, ids, child);
    HalfForkKeeps(d, s, ids, child);
    assert LogEntries(s2) == LogEntries(s1);
    RecoveryRebuildsLive(d, s2);
    assert Live(s2, child);
    CreateForks(d, s, parents, child);
    assert parents != [] ==> parents[0] in ids;
    assert |Snapshots(s, ids)| == |ids|;
    hide Inv;
  }

  lemma FirstEntryFolds(d: Deltas, child: ContextId, ids: seq<ContextId>)
    ensures Fold(d, [LogEntry(child, 0, ContextCreated(ids))])
            == Ok(View(Some(Ctx(d.none, map[], [], false)), None, false, 1))
  {
    var first := LogEntry(child, 0, ContextCreated(ids));
    FoldSnoc(d, [], first);
    assert [] + [first] == [first];
  }
}
