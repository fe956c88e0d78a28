/**
 The context store as values: every context has an append-only log, and the live contexts are
 changed only together with a log append. `ContextStoreRuntime` holds the classes that are proved
 to compute these functions; `ContextRecovery` and `ContextLineage` hold what is proved of them.
 */
module ContextLog {
  import opened Options
  import opened StableSort

  type ContextId = nat
  type Key = string
  type SourceId = string
  type Value(==,!new)
  type Delta(==,!new)
  type UserData = map<Key, Value>

  /** Any diff library: no law is assumed, the store checks every delta when it is made. */
  datatype Deltas = Deltas(none: Value, diff: (Value, Value) -> Delta, apply: (Value, Delta) -> Value)

  datatype Snapshot = Snapshot(ctxId: ContextId, payload: Value, userData: UserData)

  datatype EntryData =
    | MessageSent(source: SourceId, payloadDelta: Delta)
    | UserDataChange(key: Key, valueDelta: Delta)
    | UserNote(note: string)
    | ContextDataInitialized(payload: Value, userData: UserData, parentContexts: seq<Snapshot>)
    | ChildContextCreated(child: ContextId)
    | ContextCreated(parents: seq<ContextId>)
    | ContextCompleted

  datatype LogEntry = LogEntry(ctx: ContextId, stepIdx: nat, data: EntryData)

  datatype Ctx = Ctx(payload: Value, userData: UserData, parents: seq<Snapshot>, completed: bool)

  type Logs = map<ContextId, seq<LogEntry>>

  /**
   The persistence layer (`order` is the insertion order of the Python dict `data`) and the
   contexts of the running process.
   */
  datatype System = System(
    order: seq<ContextId>,
    data: Logs,
    tree: map<ContextId, seq<ContextId>>,
    contexts: map<ContextId, Ctx>)

  datatype Outcome = Done | InvalidContextId | AlreadyCompleted | DeltaMismatch | CorruptLog

  const Empty := System([], map[], map[], map[])

  predicate WellKeyed(s: System) {
    s.contexts.Keys <= s.data.Keys == s.tree.Keys
  }

  /******* Replay *******/

  datatype Result<+T> = Ok(value: T) | Corrupt

  datatype Replay = Replay(
    contexts: map<ContextId, Ctx>,
    lastMessages: map<ContextId, EntryData>,
    completed: set<ContextId>,
    steps: map<ContextId, nat>)

  const Blank := Replay(map[], map[], {}, map[])

  function ReadKey(d: Deltas, ud: UserData, key: Key): Value {
    if key in ud then ud[key] else d.none
  }

  /** One iteration of the recovery loop; every raise is `Corrupt`. */
  function ReplayEntry(d: Deltas, r: Replay, e: LogEntry): Result<Replay> {
    var c := e.ctx;
    if e.stepIdx != (if c in r.steps then r.steps[c] + 1 else 0) || c in r.completed then
      Corrupt
    else
      var r := r.(steps := r.steps[c := e.stepIdx]);
      match e.data
      case ContextCreated(_) =>
        if c in r.contexts then Corrupt
        else Ok(r.(contexts := r.contexts[c := Ctx(d.none, map[], [], false)]))
      case ContextDataInitialized(payload, userData, parents) =>
        if c !in r.contexts then Corrupt
        else Ok(r.(contexts :=
          r.contexts[c := r.contexts[c].(payload := payload, userData := userData, parents := parents)]))
      case ChildContextCreated(_) => Ok(r)
      case MessageSent(_, delta) =>
        if c !in r.contexts then Corrupt
        else
          var x := r.contexts[c];
          Ok(r.(contexts := r.contexts[c := x.(payload := d.apply(x.payload, delta))],
                lastMessages := r.lastMessages[c := e.data]))
      case UserNote(_) => Ok(r)
      case UserDataChange(key, delta) =>
        if c !in r.contexts then Corrupt
        else
          var x := r.contexts[c];
          Ok(r.(contexts :=
            r.contexts[c := x.(userData := x.userData[key := d.apply(ReadKey(d, x.userData, key), delta)])]))
      case ContextCompleted =>
        if c !in r.contexts then Corrupt
        else Ok(r.(contexts := r.contexts - {c}, completed := r.completed + {c}, lastMessages := r.lastMessages - {c}))
  }

  function ReplayAll(d: Deltas, es: seq<LogEntry>): Result<Replay> {
    if es == [] then Ok(Blank)
    else
      var before := ReplayAll(d, es[..|es| - 1]);
      if before.Corrupt? then Corrupt else ReplayEntry(d, before.value, es[|es| - 1])
  }

  lemma ReplaySnoc(d: Deltas, es: seq<LogEntry>, e: LogEntry)
    ensures ReplayAll(d, es + [e])
         == if ReplayAll(d, es).Corrupt? then Corrupt else ReplayEntry(d, ReplayAll(d, es).value, e)
  {
    assert (es + [e])[..|es|] == es;
  }

  /******* The persisted entries, in the order recovery reads them *******/

  function StepOf(): LogEntry -> int {
    (e: LogEntry) => e.stepIdx
  }

  function OfContext(c: ContextId): LogEntry -> bool {
    (e: LogEntry) => e.ctx == c
  }

  function LogOf(c: ContextId, data: Logs): seq<LogEntry> {
    if c in data then data[c] else []
  }

  function Concat(order: seq<ContextId>, data: Logs): seq<LogEntry> {
    if order == [] then [] else Concat(order[..|order| - 1], data) + LogOf(order[|order| - 1], data)
  }

  function LogEntries(s: System): seq<LogEntry> {
    Sort(Concat(s.order, s.data), StepOf())
  }

  /******* Operations *******/

  function AppendEntry(s: System, c: ContextId, data: EntryData): System
    requires c in s.data
  {
    s.(data := s.data[c := s.data[c] + [LogEntry(c, |s.data[c]|, data)]])
  }

  function Guard(s: System, c: ContextId): Outcome {
    if c !in s.contexts then InvalidContextId
    else if s.contexts[c].completed then AlreadyCompleted
    else Done
  }

  /** The entry is logged before the delta is checked, so a mismatch leaves it in the log. */
  function AppendMessage(d: Deltas, s: System, c: ContextId, source: SourceId, payload: Value): (System, Outcome)
    requires WellKeyed(s)
  {
    if Guard(s, c) != Done then (s, Guard(s, c))
    else
      var prev := s.contexts[c];
      var delta := d.diff(prev.payload, payload);
      var logged := AppendEntry(s, c, MessageSent(source, delta));
      if d.apply(prev.payload, delta) != payload then (logged, DeltaMismatch)
      else (logged.(contexts := s.contexts[c := prev.(payload := payload)]), Done)
  }

  function SetUserData(d: Deltas, s: System, c: ContextId, key: Key, value: Value): (System, Outcome)
    requires WellKeyed(s)
  {
    if Guard(s, c) != Done then (s, Guard(s, c))
    else
      var prev := s.contexts[c];
      var delta := d.diff(ReadKey(d, prev.userData, key), value);
      var logged := AppendEntry(s, c, UserDataChange(key, delta));
      if d.apply(ReadKey(d, prev.userData, key), delta) != value then (logged, DeltaMismatch)
      else (logged.(contexts := s.contexts[c := prev.(userData := prev.userData[key := value])]), Done)
  }

  function AppendUserNote(s: System, c: ContextId, note: string): (System, Outcome)
    requires WellKeyed(s)
  {
    if Guard(s, c) != Done then (s, Guard(s, c)) else (AppendEntry(s, c, UserNote(note)), Done)
  }

  function Complete(s: System, c: ContextId): (System, Outcome)
    requires WellKeyed(s)
  {
    if Guard(s, c) != Done then (s, Guard(s, c))
    else (AppendEntry(s, c, ContextCompleted).(contexts := s.contexts[c := s.contexts[c].(completed := true)]), Done)
  }

  /** `tuple(dict.fromkeys(parents))`: first occurrences, in order. */
  function Dedup(ids: seq<ContextId>): (r: seq<ContextId>)
    ensures forall c :: c in r <==> c in ids
    ensures forall i, j :: 0 <= i < j < |r| ==> r[i] != r[j]
  {
    if ids == [] then []
    else
      var r := Dedup(ids[..|ids| - 1]);
      var c := ids[|ids| - 1];
      assert ids == ids[..|ids| - 1] + [c];
      if c in r then r else r + [c]
  }

  function Snapshots(s: System, ids: seq<ContextId>): (r: seq<Snapshot>)
    requires forall c :: c in ids ==> c in s.contexts
  {
    seq(|ids|, i requires 0 <= i < |ids| => Snapshot(ids[i], s.contexts[ids[i]].payload, s.contexts[ids[i]].userData))
  }

  function InitialCtx(d: Deltas, snapshots: seq<Snapshot>): Ctx {
    if |snapshots| == 1 then Ctx(snapshots[0].payload, snapshots[0].userData, snapshots, false)
    else Ctx(d.none, map[], snapshots, false)
  }

  /** What the persistence layer writes: one entry in every parent log, the first entry of the child log. */
  function PersistChild(s: System, ids: seq<ContextId>, child: ContextId): System
    requires WellKeyed(s)
  {
    System(
      s.order + [child],
      map c | c in s.data.Keys + {child} ::
        if c == child then [LogEntry(child, 0, ContextCreated(ids))]
        else if c in ids then s.data[c] + [LogEntry(c, |s.data[c]|, ChildContextCreated(child))]
        else s.data[c],
      map c | c in s.data.Keys + {child} ::
        if c == child then [] else if c in ids then s.tree[c] + [child] else s.tree[c],
      s.contexts)
  }

  /** Locking fails on an unknown parent before any parent is looked at for completion. */
  function CreateGuard(s: System, ids: seq<ContextId>): Outcome {
    if exists c :: c in ids && c !in s.contexts then InvalidContextId
    else if exists c :: c in ids && c in s.contexts && s.contexts[c].completed then AlreadyCompleted
    else Done
  }

  function CreateContext(d: Deltas, s: System, parents: seq<ContextId>, child: ContextId): (System, Outcome)
    requires WellKeyed(s)
  {
    var ids := Dedup(parents);
    if CreateGuard(s, ids) != Done then (s, CreateGuard(s, ids))
    else
      var x := InitialCtx(d, Snapshots(s, ids));
      var created := PersistChild(s, ids, child);
      var started := if ids == [] then created
                     else AppendEntry(created, child, ContextDataInitialized(x.payload, x.userData, x.parents));
      (started.(contexts := s.contexts[child := x]), Done)
  }

  /** A new process recovers from the same persistence layer. */
  function Restart(d: Deltas, s: System): (System, Outcome) {
    var r := ReplayAll(d, LogEntries(s));
    if r.Corrupt? then (s, CorruptLog) else (s.(contexts := r.value.contexts), Done)
  }

  datatype Op =
    | OpCreate(parents: seq<ContextId>, child: ContextId)
    | OpMessage(ctx: ContextId, source: SourceId, payload: Value)
    | OpUserData(ctx: ContextId, key: Key, value: Value)
    | OpNote(ctx: ContextId, note: string)
    | OpComplete(ctx: ContextId)
    | OpRestart

  function Step(d: Deltas, s: System, op: Op): (System, Outcome)
    requires WellKeyed(s)
  {
    match op
    case OpCreate(parents, child) => CreateContext(d, s, parents, child)
    case OpMessage(c, source, payload) => AppendMessage(d, s, c, source, payload)
    case OpUserData(c, key, value) => SetUserData(d, s, c, key, value)
    case OpNote(c, note) => AppendUserNote(s, c, note)
    case OpComplete(c) => Complete(s, c)
    case OpRestart => Restart(d, s)
  }
}
