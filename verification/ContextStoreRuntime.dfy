/**
 The mutable classes of the context store. Every method is proved against the function of the same
 name in `ContextLog`, applied to the abstract value `Abs()` of the store it belongs to.
 */
module ContextStoreRuntime {
  import opened Options
  import opened StableSort
  import opened ContextLog

  /** One `ChildContextCreated` entry per element of `parents`, in order. */
  ghost function ForkLogs(data: Logs, parents: seq<ContextId>, child: ContextId): (r: Logs)
    requires forall c :: c in parents ==> c in data
    ensures r.Keys == data.Keys
  {
    if parents == [] then data
    else
      var p := parents[|parents| - 1];
      var r := ForkLogs(data, parents[..|parents| - 1], child);
      r[p := r[p] + [LogEntry(p, |r[p]|, ChildContextCreated(child))]]
  }

  ghost function ForkTree(tree: map<ContextId, seq<ContextId>>, parents: seq<ContextId>,
                          child: ContextId): (r: map<ContextId, seq<ContextId>>)
    requires forall c :: c in parents ==> c in tree
    ensures r.Keys == tree.Keys
  {
    if parents == [] then tree
    else
      var p := parents[|parents| - 1];
      var r := ForkTree(tree, parents[..|parents| - 1], child);
      r[p := r[p] + [child]]
  }

  /** Without repeated parents every parent log gets exactly one entry. */
  lemma {:induction false} ForkOncePerParent(data: Logs, parents: seq<ContextId>, child: ContextId)
    requires forall c :: c in parents ==> c in data
    requires forall i, j :: 0 <= i < j < |parents| ==> parents[i] != parents[j]
    ensures forall c :: c in data ==>
      ForkLogs(data, parents, child)[c]
      == data[c] + if c in parents then [LogEntry(c, |data[c]|, ChildContextCreated(child))] else []
  {
    if parents != [] {
      var init, p := parents[..|parents| - 1], parents[|parents| - 1];
      assert parents == init + [p];
      ForkOncePerParent(data, init, child);
      assert p !in init;
    }
  }

  lemma {:induction false} ForkOncePerNode(tree: map<ContextId, seq<ContextId>>, parents: seq<ContextId>,
                                           child: ContextId)
    requires forall c :: c in parents ==> c in tree
    requires forall i, j :: 0 <= i < j < |parents| ==> parents[i] != parents[j]
    ensures forall c :: c in tree ==>
              ForkTree(tree, parents, child)[c] == tree[c] + if c in parents then [child] else []
  {
    if parents != [] {
      var init, p := parents[..|parents| - 1], parents[|parents| - 1];
      assert parents == init + [p];
      ForkOncePerNode(tree, init, child);
      assert p !in init;
    }
  }

  lemma PersistChildForks(s: System, ids: seq<ContextId>, child: ContextId)
    requires WellKeyed(s) && child !in s.data
    requires forall c :: c in ids ==> c in s.data
    requires forall i, j :: 0 <= i < j < |ids| ==> ids[i] != ids[j]
    ensures PersistChild(s, ids, child)
         == System(s.order + [child],
                   ForkLogs(s.data, ids, child)[child := [LogEntry(child, 0, ContextCreated(ids))]],
                   ForkTree(s.tree, ids, child)[child := []],
                   s.contexts)
  {
    ForkOncePerParent(s.data, ids, child);
    ForkOncePerNode(s.tree, ids, child);
    var created := PersistChild(s, ids, child);
    var data := ForkLogs(s.data, ids, child)[child := [LogEntry(child, 0, ContextCreated(ids))]];
    var tree := ForkTree(s.tree, ids, child)[child := []];
    hide ForkLogs;
    hide ForkTree;
    forall c | c in data ensures c in created.data && created.data[c] == data[c] && created.tree[c] == tree[c] {
    }
    assert created.data.Keys == data.Keys && created.tree.Keys == tree.Keys;
    assert created.data == data;
    assert created.tree == tree;
  }

  class InMemoryContextStorePersistence {
    var order: seq<ContextId>
    var data: Logs
    var tree: map<ContextId, seq<ContextId>>

    constructor ()
      ensures order == [] && data == map[] && tree == map[]
    {
      order, data, tree := [], map[], map[];
    }

    method AppendEntry(ctx: ContextId, entry: EntryData) returns (found: bool)
      modifies this`data
      ensures found == (ctx in old(data))
      ensures data ==
              if found then old(data)[ctx := old(data)[ctx] + [LogEntry(ctx, |old(data)[ctx]|, entry)]] else old(data)
    {
      found := ctx in data;
      if found {
        data := data[ctx := data[ctx] + [LogEntry(ctx, |data[ctx]|, entry)]];
      }
    }

    /** `child` is the generated id; ids are never generated twice. */
    method CreateContext(parents: seq<ContextId>, child: ContextId) returns (found: bool)
      requires child !in data && child !in tree
      modifies this
      ensures found == (forall c :: c in parents ==> c in old(data) && c in old(tree))
      ensures !found ==> order == old(order) && data == old(data) && tree == old(tree)
      ensures found ==>
                && order == old(order) + [child]
                && data == ForkLogs(old(data), parents, child)[child := [LogEntry(child, 0, ContextCreated(parents))]]
                && tree == ForkTree(old(tree), parents, child)[child := []]
    {
      found := KnowsAll(parents);
      if !found {
        return;
      }
      ForkParents(parents, child);
      data := data[child := [LogEntry(child, 0, ContextCreated(parents))]];
      tree := tree[child := []];
      order := order + [child];
    }

    method KnowsAll(parents: seq<ContextId>) returns (all: bool)
      ensures all == (forall c :: c in parents ==> c in data && c in tree)
    {
      for i := 0 to |parents|
        invariant forall c :: c in parents[..i] ==> c in data && c in tree
      {
        if parents[i] !in tree || parents[i] !in data {
          return false;
        }
      }
      assert parents[..|parents|] == parents;
      return true;
    }

    method ForkParents(parents: seq<ContextId>, child: ContextId)
      requires forall c :: c in parents ==> c in data && c in tree
      modifies this`data, this`tree
      ensures data == ForkLogs(old(data), parents, child) && tree == ForkTree(old(tree), parents, child)
    {
      for i := 0 to |parents|
        invariant data == ForkLogs(old(data), parents[..i], child)
        invariant tree == ForkTree(old(tree), parents[..i], child)
      {
        assert parents[..i + 1][..i] == parents[..i];
        var p := parents[i];
        data := data[p := data[p] + [LogEntry(p, |data[p]|, ChildContextCreated(child))]];
        tree := tree[p := tree[p] + [child]];
      }
      assert parents[..|parents|] == parents;
    }

    /** All entries, sorted by step index with Python's stable sort. */
    method LogEntries() returns (entries: seq<LogEntry>)
      ensures entries == ContextLog.LogEntries(System(order, data, tree, map[]))
    {
      entries := [];
      for i := 0 to |order|
        invariant entries == Concat(order[..i], data)
      {
        assert order[..i + 1][..i] == order[..i];
        if order[i] in data {
          entries := entries + data[order[i]];
        }
      }
      assert order[..|order|] == order;
      entries := Sort(entries, StepOf());
    }
  }

  class Context {
    const id: ContextId
    const store: ContextStore
    var payload: Value
    var userData: UserData
    var parents: seq<Snapshot>
    var isCompleted: bool

    constructor (id: ContextId, payload: Value, userData: UserData, parents: seq<Snapshot>, store: ContextStore)
      ensures this.id == id && this.store == store
      ensures State() == Ctx(payload, userData, parents, false)
    {
      this.id, this.store := id, store;
      this.payload, this.userData, this.parents, this.isCompleted := payload, userData, parents, false;
    }

    ghost function State(): Ctx
      reads this
    {
      Ctx(payload, userData, parents, isCompleted)
    }

    /** This is the context the store holds under this id. */
    ghost predicate Registered()
      reads this, store, store.persistence, store.contexts.Values
    {
      store.Valid() && id in store.contexts && store.contexts[id] == this
    }

    /** The live context takes a new state, and no other context does. */
    method Become(x: Ctx)
      requires Registered() && x.parents == parents
      modifies this
      ensures Registered() && State() == x && store.contexts == old(store.contexts)
      ensures store.Abs() == old(store.Abs()).(contexts := old(store.Abs()).contexts[id := x])
    {
      ghost var s := store.Abs();
      payload, userData, isCompleted := x.payload, x.userData, x.completed;
      assert store.Abs().contexts == s.contexts[id := x];
    }

    method AppendMessage(source: SourceId, payload: Value) returns (outcome: Outcome)
      requires Registered()
      modifies this, store.persistence
      ensures Registered() && store.contexts == old(store.contexts)
      ensures outcome == ContextLog.AppendMessage(store.d, old(store.Abs()), id, source, payload).1
      ensures store.Abs() == ContextLog.AppendMessage(store.d, old(store.Abs()), id, source, payload).0
    {
      hide ContextLog.AppendEntry;
      ghost var s := store.Abs();
      assert s.contexts[id] == State();
      if isCompleted {
        return AlreadyCompleted;
      }
      var delta := store.d.diff(this.payload, payload);
      outcome := store.AppendEntry(id, MessageSent(source, delta));
      assert store.Abs() == ContextLog.AppendEntry(s, id, MessageSent(source, delta));
      if store.d.apply(this.payload, delta) != payload {
        return DeltaMismatch;
      }
      Become(Ctx(payload, userData, parents, false));
    }

    method SetUserData(key: Key, value: Value) returns (outcome: Outcome)
      requires Registered()
      modifies this, store.persistence
      ensures Registered() && store.contexts == old(store.contexts)
      ensures outcome == ContextLog.SetUserData(store.d, old(store.Abs()), id, key, value).1
      ensures store.Abs() == ContextLog.SetUserData(store.d, old(store.Abs()), id, key, value).0
    {
      hide ContextLog.AppendEntry;
      ghost var s := store.Abs();
      assert s.contexts[id] == State();
      if isCompleted {
        return AlreadyCompleted;
      }
      var before := ReadKey(store.d, userData, key);
      var delta := store.d.diff(before, value);
      outcome := store.AppendEntry(id, UserDataChange(key, delta));
      assert store.Abs() == ContextLog.AppendEntry(s, id, UserDataChange(key, delta));
      if store.d.apply(before, delta) != value {
        return DeltaMismatch;
      }
      Become(Ctx(payload, userData[key := value], parents, false));
    }

    /** The effect of a replayed entry on its context object, without logging anything. */
    method Replay(data: EntryData)
      modifies this
      ensures State() == Replayed(store.d, old(State()), data)
    {
      match data
      case ContextDataInitialized(payload, userData, parents) =>
        this.payload, this.userData, this.parents := payload, userData, parents;
      case MessageSent(_, delta) =>
        payload := store.d.apply(payload, delta);
      case UserDataChange(key, delta) =>
        userData := userData[key := store.d.apply(ReadKey(store.d, userData, key), delta)];
      case _ =>
    }

    method AppendUserNote(note: string) returns (outcome: Outcome)
      requires Registered()
      modifies this, store.persistence
      ensures Registered() && store.contexts == old(store.contexts)
      ensures (store.Abs(), outcome) == ContextLog.AppendUserNote(old(store.Abs()), id, note)
    {
      if isCompleted {
        return AlreadyCompleted;
      }
      outcome := store.AppendEntry(id, UserNote(note));
    }

    method Complete() returns (outcome: Outcome)
      requires Registered()
      modifies this, store.persistence
      ensures Registered() && store.contexts == old(store.contexts)
      ensures outcome == ContextLog.Complete(old(store.Abs()), id).1
      ensures store.Abs() == ContextLog.Complete(old(store.Abs()), id).0
    {
      hide ContextLog.AppendEntry;
      ghost var s := store.Abs();
      assert s.contexts[id] == State();
      if isCompleted {
        return AlreadyCompleted;
      }
      outcome := store.AppendEntry(id, ContextCompleted);
      assert store.Abs() == ContextLog.AppendEntry(s, id, ContextCompleted);
      assert s.contexts[id].(completed := true) == Ctx(payload, userData, parents, true);
      Become(Ctx(payload, userData, parents, true));
    }
  }

  ghost function Replayed(d: Deltas, x: Ctx, data: EntryData): Ctx {
    match data
    case ContextDataInitialized(payload, userData, parents) =>
      x.(payload := payload, userData := userData, parents := parents)
    case MessageSent(_, delta) => x.(payload := d.apply(x.payload, delta))
    case UserDataChange(key, delta) => x.(userData := x.userData[key := d.apply(ReadKey(d, x.userData, key), delta)])
    case _ => x
  }

  lemma ReplayEntryUpdates(d: Deltas, r: ContextLog.Replay, e: LogEntry)
    requires e.ctx in r.contexts && e.ctx !in r.completed
    requires e.stepIdx == if e.ctx in r.steps then r.steps[e.ctx] + 1 else 0
    requires e.data.ContextDataInitialized? || e.data.MessageSent? || e.data.UserDataChange?
    ensures ReplayEntry(d, r, e)
         == Ok(ContextLog.Replay(r.contexts[e.ctx := Replayed(d, r.contexts[e.ctx], e.data)],
                                 if e.data.MessageSent? then r.lastMessages[e.ctx := e.data] else r.lastMessages,
                                 r.completed, r.steps[e.ctx := e.stepIdx]))
  {
  }

  /** The tail of a creation: `child` is persisted already. */
  ghost function Started(s: System, child: ContextId, x: Ctx): System
    requires child in s.data
  {
    (if x.parents == [] then s
     else ContextLog.AppendEntry(s, child, ContextDataInitialized(x.payload, x.userData, x.parents))).(contexts :=
       s.contexts[child := x])
  }

  lemma CreateStarts(d: Deltas, s: System, parents: seq<ContextId>, child: ContextId)
    requires WellKeyed(s) && child !in s.data && CreateGuard(s, Dedup(parents)) == Done
    ensures var ids := Dedup(parents);
            ContextLog.CreateContext(d, s, parents, child)
            == (Started(PersistChild(s, ids, child), child, InitialCtx(d, Snapshots(s, ids))), Done)
  {
  }

  class ContextStore {
    const d: Deltas
    const persistence: InMemoryContextStorePersistence
    var contexts: map<ContextId, Context>

    constructor (d: Deltas, persistence: InMemoryContextStorePersistence)
      ensures this.d == d && this.persistence == persistence && contexts == map[]
    {
      this.d, this.persistence, contexts := d, persistence, map[];
    }

    ghost predicate Valid()
      reads this, persistence, contexts.Values
    {
      && contexts.Keys <= persistence.data.Keys == persistence.tree.Keys
      && forall c :: c in contexts ==> contexts[c].id == c && contexts[c].store == this
    }

    ghost function Abs(): System
      reads this, persistence, contexts.Values
    {
      System(persistence.order, persistence.data, persistence.tree, map c | c in contexts :: contexts[c].State())
    }

    method AppendEntry(ctx: ContextId, entry: EntryData) returns (outcome: Outcome)
      requires Valid()
      modifies persistence
      ensures Valid()
      ensures outcome == Guard(old(Abs()), ctx)
      ensures Abs() == if outcome == Done then ContextLog.AppendEntry(old(Abs()), ctx, entry) else old(Abs())
    {
      if ctx !in contexts {
        return InvalidContextId;
      }
      if contexts[ctx].isCompleted {
        return AlreadyCompleted;
      }
      var found := persistence.AppendEntry(ctx, entry);
      outcome := Done;
    }

    /** A context is handed out under its lock, which exists iff the store holds the context. */
    method GetContext(ctx: ContextId) returns (context: Option<Context>)
      requires Valid()
      ensures context.Some? <==> ctx in contexts
      ensures context.Some? ==> context.value.Registered() && context.value.id == ctx && context.value.store == this
    {
      context := if ctx in contexts then Some(contexts[ctx]) else None;
    }

    /** Locks and checks every parent, and copies its state. */
    method TakeSnapshots(ids: seq<ContextId>) returns (snapshots: seq<Snapshot>, outcome: Outcome)
      requires Valid()
      ensures outcome == CreateGuard(Abs(), ids)
      ensures outcome == Done ==> snapshots == Snapshots(Abs(), ids)
    {
      snapshots, outcome := [], Done;
      for i := 0 to |ids|
        invariant forall c :: c in ids[..i] ==> c in contexts
      {
        if ids[i] !in contexts {
          return [], InvalidContextId;
        }
      }
      assert ids[..|ids|] == ids;
      for i := 0 to |ids|
        invariant |snapshots| == i
        invariant forall j :: 0 <= j < i ==> !contexts[ids[j]].isCompleted
        invariant forall j :: 0 <= j < i ==>
                    snapshots[j] == Snapshot(ids[j], contexts[ids[j]].payload, contexts[ids[j]].userData)
      {
        var parent := contexts[ids[i]];
        if parent.isCompleted {
          assert Abs().contexts[ids[i]].completed;
          return [], AlreadyCompleted;
        }
        snapshots := snapshots + [Snapshot(parent.id, parent.payload, parent.userData)];
      }
    }

    method Register(child: ContextId, payload: Value, userData: UserData, snapshots: seq<Snapshot>)
      returns (context: Context)
      requires Valid() && child in persistence.data && child !in contexts
      modifies this`contexts
      ensures Valid() && fresh(context) && context.Registered() && context.id == child && context.store == this
      ensures Abs() == old(Abs()).(contexts := old(Abs()).contexts[child := Ctx(payload, userData, snapshots, false)])
    {
      context := new Context(child, payload, userData, snapshots, this);
      contexts := contexts[child := context];
      assert Abs().contexts == old(Abs()).contexts[child := context.State()];
    }

    /** `tuple(dict.fromkeys(parents))` */
    static method UniqueIds(parents: seq<ContextId>) returns (ids: seq<ContextId>)
      ensures ids == Dedup(parents)
    {
      ids := [];
      for i := 0 to |parents|
        invariant ids == Dedup(parents[..i])
      {
        assert parents[..i + 1][..i] == parents[..i];
        if parents[i] !in ids {
          ids := ids + [parents[i]];
        }
      }
      assert parents[..|parents|] == parents;
    }

    method PersistNewContext(ids: seq<ContextId>, child: ContextId)
      requires Valid() && child !in persistence.data
      requires forall c :: c in ids ==> c in contexts
      requires forall i, j :: 0 <= i < j < |ids| ==> ids[i] != ids[j]
      modifies persistence
      ensures Valid() && child in persistence.data
      ensures Abs() == PersistChild(old(Abs()), ids, child)
    {
      ghost var before := Abs();
      PersistChildForks(before, ids, child);
      var found := persistence.CreateContext(ids, child);
      assert Abs().contexts == before.contexts;
    }

    method CreateContext(parents: seq<ContextId>, child: ContextId) returns (context: Option<Context>, outcome: Outcome)
      requires Valid() && child !in persistence.data
      modifies this, persistence
      ensures Valid()
      ensures outcome == ContextLog.CreateContext(d, old(Abs()), parents, child).1
      ensures Abs() == ContextLog.CreateContext(d, old(Abs()), parents, child).0
      ensures context.Some? <==> outcome == Done
      ensures context.Some? ==>
                fresh(context.value) && context.value.id == child && context.value.store == this
                && context.value.Registered()
    {
      ghost var before := Abs();
      var ids := UniqueIds(parents);
      var snapshots, guard := TakeSnapshots(ids);
      if guard != Done {
        return None, guard;
      }
      var payload, userData := d.none, map[];
      if |snapshots| == 1 {
        payload, userData := snapshots[0].payload, snapshots[0].userData;
      }
      assert InitialCtx(d, snapshots) == Ctx(payload, userData, snapshots, false);
      CreateStarts(d, before, parents, child);
      PersistNewContext(ids, child);
      var created := StartChild(child, payload, userData, snapshots);
      context, outcome := Some(created), Done;
    }

    /** The new context object, and its log entry if it has parents. */
    method StartChild(child: ContextId, payload: Value, userData: UserData, snapshots: seq<Snapshot>)
      returns (context: Context)
      requires Valid() && child in persistence.data && child !in contexts
      modifies this, persistence
      ensures Valid() && fresh(context) && context.Registered() && context.id == child && context.store == this
      ensures Abs() == Started(old(Abs()), child, Ctx(payload, userData, snapshots, false))
    {
      ghost var before := Abs();
      context := Register(child, payload, userData, snapshots);
      ghost var registered := Abs();
      if snapshots != [] {
        assert Guard(registered, child) == Done;
        var outcome := AppendEntry(child, ContextDataInitialized(payload, userData, snapshots));
      }
    }

    /** An entry that needs an existing context object: its update, or its removal on completion. */
    static method ReplayOnto(store: ContextStore, r: RecoveryState, e: LogEntry) returns (r': RecoveryState)
      requires r.For(store) && e.ctx in r.contexts && e.ctx !in r.completed
      requires e.stepIdx == if e.ctx in r.steps then r.steps[e.ctx] + 1 else 0
      requires e.data.ContextDataInitialized? || e.data.MessageSent? || e.data.UserDataChange?
               || e.data.ContextCompleted?
      modifies r.contexts[e.ctx]
      ensures Ok(r'.Abs()) == ReplayEntry(store.d, old(r.Abs()), e)
      ensures r'.For(store) && r'.contexts.Values <= r.contexts.Values
    {
      var c := e.ctx;
      if e.data.ContextCompleted? {
        r.contexts[c].isCompleted := true;
        r' := RecoveryState(r.contexts - {c}, r.lastMessages - {c}, r.completed + {c}, r.steps[c := e.stepIdx]);
        assert r'.Abs().contexts == old(r.Abs()).contexts - {c};
      } else {
        ReplayEntryUpdates(store.d, r.Abs(), e);
        r.contexts[c].Replay(e.data);
        r' := r.(steps := r.steps[c := e.stepIdx], lastMessages := if e.data.MessageSent?
          then r.lastMessages[c := e.data] else r.lastMessages);
        assert r'.Abs().contexts == old(r.Abs()).contexts[c := r.contexts[c].State()];
      }
    }

    /** One iteration of the recovery loop. */
    static method ReplayInto(store: ContextStore, r: RecoveryState, e: LogEntry) returns (r': Option<RecoveryState>)
      requires r.For(store)
      modifies r.contexts.Values
      ensures r'.Some? <==> ReplayEntry(store.d, old(r.Abs()), e).Ok?
      ensures r'.Some? ==> r'.value.For(store) && Ok(r'.value.Abs()) == ReplayEntry(store.d, old(r.Abs()), e)
      ensures r'.Some? ==> forall c :: c in r'.value.contexts ==>
                r'.value.contexts[c] in r.contexts.Values || fresh(r'.value.contexts[c])
    {
      var c := e.ctx;
      var expected := if c in r.steps then r.steps[c] + 1 else 0;
      if e.stepIdx != expected || c in r.completed {
        return None;
      }
      match e.data {
        case ContextCreated(_) =>
          if c in r.contexts {
            return None;
          }
          var context := new Context(c, store.d.none, map[], [], store);
          var r1 := r.(steps := r.steps[c := e.stepIdx], contexts := r.contexts[c := context]);
          assert r1.Abs().contexts == old(r.Abs()).contexts[c := context.State()];
          return Some(r1);
        case ChildContextCreated(_) =>
          return Some(r.(steps := r.steps[c := e.stepIdx]));
        case UserNote(_) =>
          return Some(r.(steps := r.steps[c := e.stepIdx]));
        case _ =>
          if c !in r.contexts {
            return None;
          }
          var r1 := ReplayOnto(store, r, e);
          return Some(r1);
      }
    }

    /** Replays the persisted entries into new context objects, one entry at a time. */
    static method RecoverFrom(d: Deltas, persistence: InMemoryContextStorePersistence)
      returns (recovered: Option<ContextStore>, lastMessages: map<ContextId, EntryData>)
      ensures var s := System(persistence.order, persistence.data, persistence.tree, map[]);
              var r := ReplayAll(d, ContextLog.LogEntries(s));
              && (recovered.Some? <==> r.Ok?)
              && (recovered.Some? ==>
                    && fresh(recovered.value)
                    && recovered.value.d == d && recovered.value.persistence == persistence
                    && (forall c :: c in recovered.value.contexts ==>
                          recovered.value.contexts[c].id == c && recovered.value.contexts[c].store == recovered.value)
                    && recovered.value.Abs() == s.(contexts := r.value.contexts)
                    && lastMessages == r.value.lastMessages)
    {
      hide ReplayEntry;
      hide ContextLog.LogEntries;
      var entries := persistence.LogEntries();
      var store := new ContextStore(d, persistence);
      var r := RecoveryState(map[], map[], {}, map[]);
      for i := 0 to |entries|
        invariant fresh(store) && store.d == d && store.persistence == persistence
        invariant r.For(store)
        invariant forall c :: c in r.contexts ==> fresh(r.contexts[c])
        invariant ReplayAll(d, entries[..i]) == Ok(r.Abs())
      {
        assert entries[..i + 1] == entries[..i] + [entries[i]];
        ReplaySnoc(d, entries[..i], entries[i]);
        ghost var before := r.Abs();
        var next := ReplayInto(store, r, entries[i]);
        assert next.Some? ==> Ok(next.value.Abs()) == ReplayEntry(d, before, entries[i]);
        if next.None? {
          RecoveryStops(d, entries, i);
          return None, map[];
        }
        r := next.value;
      }
      assert entries[..|entries|] == entries;
      store.contexts := r.contexts;
      recovered, lastMessages := Some(store), r.lastMessages;
    }
  }

  /** The local variables of the recovery loop. */
  datatype RecoveryState = RecoveryState(
    contexts: map<ContextId, Context>,
    lastMessages: map<ContextId, EntryData>,
    completed: set<ContextId>,
    steps: map<ContextId, nat>)
  {
    ghost predicate For(store: ContextStore)
    {
      forall c :: c in contexts ==> contexts[c].id == c && contexts[c].store == store
    }

    ghost function Abs(): Replay
      reads contexts.Values
    {
      Replay(map c | c in contexts :: contexts[c].State(), lastMessages, completed, steps)
    }
  }

  /** A raise in the middle makes the whole recovery fail. */
  lemma {:induction false} RecoveryStops(d: Deltas, es: seq<LogEntry>, i: nat)
    requires i < |es| && ReplayAll(d, es[..i + 1]).Corrupt?
    ensures ReplayAll(d, es).Corrupt?
    decreases |es|
  {
    if i + 1 == |es| {
      assert es[..i + 1] == es;
    } else {
      var init := es[..|es| - 1];
      assert init[..i + 1] == es[..i + 1];
      RecoveryStops(d, init, i);
    }
  }
}
