/**
 The in-memory task-result store: two lists and an id index per task, queried by epoch. Ids are generated
 and never repeat; `None` is a raised exception.
 */
module TaskResultStore {
  import opened Options
  import opened StableSort
  import opened Epochs

  type TaskName = string
  type ResultId = nat
  type Hotkey = string
  type Payload(==,!new)
  type Output(==,!new)
  type Public(==,!new)

  datatype Answer = Succeeded(output: Output) | ExecutorFailed | OtherException

  /** What is handed over to be persisted; a success may lack its public output. */
  datatype ToPersist = ToPersist(block: int, hotkey: Hotkey, payload: Payload, answer: Answer, public: Option<Public>)

  datatype Content = Success(output: Output, public: Public) | Failure

  datatype Entry = Entry(id: ResultId, block: int, hotkey: Hotkey, payload: Payload, content: Content)

  function InEpoch(e: Epoch): Entry -> bool {
    (r: Entry) => e.Contains(r.block)
  }

  function AtBlock(block: int): Entry -> bool {
    (r: Entry) => r.block == block
  }

  function ByHotkey(hotkey: Hotkey): Entry -> bool {
    (r: Entry) => r.hotkey == hotkey
  }

  function BlockOf(): Entry -> int {
    (r: Entry) => r.block
  }

  /** Filtered by epoch, then sorted by block with a stable sort. */
  function EpochQuery(entries: seq<Entry>, e: Epoch): seq<Entry> {
    Sort(Filter(entries, InEpoch(e)), BlockOf())
  }

  ghost predicate Listed(r: Entry, successes: seq<Entry>, failures: seq<Entry>) {
    r in successes || r in failures
  }

  ghost predicate DistinctIds(entries: seq<Entry>) {
    forall i, j :: 0 <= i < j < |entries| ==> entries[i].id != entries[j].id
  }

  /** The index of a task holds exactly the entries of both its lists, each under its own id. */
  ghost predicate Indexed(successes: seq<Entry>, failures: seq<Entry>, index: map<ResultId, Entry>) {
    && DistinctIds(successes + failures)
    && (forall r :: r in successes ==> r.content.Success?)
    && (forall r :: r in failures ==> r.content.Failure?)
    && (forall r :: Listed(r, successes, failures) ==> r.id in index && index[r.id] == r)
    && (forall id :: id in index ==> index[id].id == id && Listed(index[id], successes, failures))
  }

  lemma AddKeepsIndexed(successes: seq<Entry>, failures: seq<Entry>, index: map<ResultId, Entry>, r: Entry)
    requires Indexed(successes, failures, index) && r.id !in index
    ensures r.content.Success? ==> Indexed(successes + [r], failures, index[r.id := r])
    ensures r.content.Failure? ==> Indexed(successes, failures + [r], index[r.id := r])
  {
    var all := successes + failures;
    forall i | 0 <= i < |all| ensures all[i].id != r.id {
      assert Listed(all[i], successes, failures);
    }
    if r.content.Success? {
      var all1 := (successes + [r]) + failures;
      forall i, j | 0 <= i < j < |all1| ensures all1[i].id != all1[j].id {
        var n := |successes|;
        assert i != n ==> all1[i] == all[if i < n then i else i - 1];
        assert j != n ==> all1[j] == all[if j < n then j else j - 1];
      }
      IndexedWith(successes, failures, successes + [r], failures, index, r);
    } else {
      assert successes + (failures + [r]) == all + [r];
      IndexedWith(successes, failures, successes, failures + [r], index, r);
    }
  }

  lemma EmptyIndexed()
    ensures Indexed([], [], map[])
  {
  }

  lemma IndexedWith(successes: seq<Entry>, failures: seq<Entry>, successes1: seq<Entry>, failures1: seq<Entry>,
                    index: map<ResultId, Entry>, r: Entry)
    requires Indexed(successes, failures, index) && r.id !in index
    requires (successes1 == successes + [r] && failures1 == failures)
             || (successes1 == successes && failures1 == failures + [r])
    ensures forall x :: Listed(x, successes1, failures1) <==> Listed(x, successes, failures) || x == r
    ensures forall x :: Listed(x, successes1, failures1) ==> x.id in index[r.id := r] && index[r.id := r][x.id] == x
  {
  }

  function EntriesOf(store: map<TaskName, seq<Entry>>, t: TaskName): seq<Entry> {
    if t in store then store[t] else []
  }

  function IndexOf(byId: map<TaskName, map<ResultId, Entry>>, t: TaskName): map<ResultId, Entry> {
    if t in byId then byId[t] else map[]
  }

  /** All three dictionaries know the same tasks, and the index of each task agrees with its lists. */
  ghost predicate Consistent(successes: map<TaskName, seq<Entry>>, failures: map<TaskName, seq<Entry>>,
                             byId: map<TaskName, map<ResultId, Entry>>) {
    && successes.Keys == failures.Keys == byId.Keys
    && forall t :: t in byId ==> Indexed(successes[t], failures[t], byId[t])
  }

  lemma RegisterKeeps(successes: map<TaskName, seq<Entry>>, failures: map<TaskName, seq<Entry>>,
                      byId: map<TaskName, map<ResultId, Entry>>, t: TaskName)
    requires Consistent(successes, failures, byId) && t !in byId
    ensures Consistent(successes[t := []], failures[t := []], byId[t := map[]])
  {
    EmptyIndexed();
  }

  lemma AddKeeps(successes: map<TaskName, seq<Entry>>, failures: map<TaskName, seq<Entry>>,
                 byId: map<TaskName, map<ResultId, Entry>>, t: TaskName, r: Entry)
    requires Consistent(successes, failures, byId) && t in byId && r.id !in byId[t]
    ensures var index: map<ResultId, Entry> := byId[t][r.id := r];
            && (r.content.Success? ==> Consistent(successes[t := successes[t] + [r]], failures, byId[t := index]))
            && (r.content.Failure? ==> Consistent(successes, failures[t := failures[t] + [r]], byId[t := index]))
  {
    AddKeepsIndexed(successes[t], failures[t], byId[t], r);
  }

  lemma Overwrite(store: map<TaskName, seq<Entry>>, t: TaskName, entries: seq<Entry>, more: seq<Entry>)
    ensures store[t := entries][t := store[t := entries][t] + more] == store[t := entries + more]
  {
  }

  lemma Unchanged(store: map<TaskName, seq<Entry>>, t: TaskName)
    requires t in store
    ensures store[t := store[t] + []] == store
  {
    assert store[t] + [] == store[t];
  }

  class InMemoryTaskResultStore {
    var successfulStore: map<TaskName, seq<Entry>>
    var executorFailureStore: map<TaskName, seq<Entry>>
    var byId: map<TaskName, map<ResultId, Entry>>

    constructor ()
      ensures Valid() && successfulStore == map[] && executorFailureStore == map[]
    {
      successfulStore, executorFailureStore, byId := map[], map[], map[];
    }

    ghost predicate Valid()
      reads this
    {
      Consistent(successfulStore, executorFailureStore, byId)
    }

    method Register(t: TaskName)
      requires Valid()
      modifies this
      ensures Valid() && t in byId && byId[t] == IndexOf(old(byId), t)
      ensures successfulStore == old(successfulStore)[t := EntriesOf(old(successfulStore), t)]
      ensures executorFailureStore == old(executorFailureStore)[t := EntriesOf(old(executorFailureStore), t)]
    {
      if t !in successfulStore {
        RegisterKeeps(successfulStore, executorFailureStore, byId, t);
        successfulStore := successfulStore[t := []];
        executorFailureStore := executorFailureStore[t := []];
        byId := byId[t := map[]];
      }
    }

    /** `noted` is false if the user note raises; the entry is in the store all the same. */
    method AddSuccessfulTaskResult(t: TaskName, result: ToPersist, id: ResultId, noted: bool)
      returns (entry: Option<Entry>)
      requires Valid() && id !in IndexOf(byId, t)
      modifies this
      ensures Valid()
      ensures !(result.answer.Succeeded? && result.public.Some?) ==>
                entry.None? && successfulStore == old(successfulStore)
                  && executorFailureStore == old(executorFailureStore)
      ensures result.answer.Succeeded? && result.public.Some? ==>
                var r := Entry(id, result.block, result.hotkey, result.payload,
                               Success(result.answer.output, result.public.value));
                && successfulStore == old(successfulStore)[t := EntriesOf(old(successfulStore), t) + [r]]
                && executorFailureStore == old(executorFailureStore)[t := EntriesOf(old(executorFailureStore), t) + []]
                && entry == (if noted then Some(r) else None)
                && t in successfulStore
                && successfulStore[t] == (if t in old(successfulStore) then old(successfulStore)[t] else []) + [r]
    {
      if !result.answer.Succeeded? || result.public.None? {
        return None;
      }
      var r := Entry(id, result.block, result.hotkey, result.payload,
                     Success(result.answer.output, result.public.value));
      Append(t, r);
      entry := if noted then Some(r) else None;
    }

    /** Under the lock: the lists and the index of the task change together. */
    method Append(t: TaskName, r: Entry)
      requires Valid() && r.id !in IndexOf(byId, t)
      modifies this
      ensures Valid()
      ensures successfulStore
              == old(successfulStore)[t := EntriesOf(old(successfulStore), t) + if r.content.Success? then [r] else []]
      ensures executorFailureStore
              == old(executorFailureStore)[t := EntriesOf(old(executorFailureStore), t)
              + if r.content.Failure? then [r] else []]
    {
      ghost var successes, failures := successfulStore, executorFailureStore;
      Register(t);
      Overwrite(successes, t, EntriesOf(successes, t), if r.content.Success? then [r] else []);
      Overwrite(failures, t, EntriesOf(failures, t), if r.content.Failure? then [r] else []);
      Insert(t, r);
    }

    method Insert(t: TaskName, r: Entry)
      requires Valid() && t in byId && r.id !in byId[t]
      modifies this
      ensures Valid()
      ensures successfulStore
              == old(successfulStore)[t := old(successfulStore)[t] + if r.content.Success? then [r] else []]
      ensures executorFailureStore
              == old(executorFailureStore)[t := old(executorFailureStore)[t] + if r.content.Failure? then [r] else []]
    {
      AddKeeps(successfulStore, executorFailureStore, byId, t, r);
      Unchanged(successfulStore, t);
      Unchanged(executorFailureStore, t);
      if r.content.Success? {
        successfulStore := successfulStore[t := successfulStore[t] + [r]];
      } else {
        executorFailureStore := executorFailureStore[t := executorFailureStore[t] + [r]];
      }
      var index: map<ResultId, Entry> := byId[t][r.id := r];
      byId := byId[t := index];
    }

    method AddExecutorFailure(t: TaskName, result: ToPersist, id: ResultId, noted: bool) returns (entry: Option<Entry>)
      requires Valid() && id !in IndexOf(byId, t)
      modifies this
      ensures Valid()
      ensures !result.answer.ExecutorFailed? ==>
                entry.None? && successfulStore == old(successfulStore)
                  && executorFailureStore == old(executorFailureStore)
      ensures result.answer.ExecutorFailed? ==>
                var r := Entry(id, result.block, result.hotkey, result.payload, Failure);
                && executorFailureStore == old(executorFailureStore)[t := EntriesOf(old(executorFailureStore), t) + [r]]
                && successfulStore == old(successfulStore)[t := EntriesOf(old(successfulStore), t) + []]
                && entry == (if noted then Some(r) else None)
                && t in executorFailureStore
                && executorFailureStore[t]
                   == (if t in old(executorFailureStore) then old(executorFailureStore)[t] else []) + [r]
    {
      if !result.answer.ExecutorFailed? {
        return None;
      }
      var r := Entry(id, result.block, result.hotkey, result.payload, Failure);
      Append(t, r);
      entry := if noted then Some(r) else None;
    }

    /** Exactly the entry of this id in either list, or an exception if there is none. */
    method GetTaskResult(t: TaskName, id: ResultId) returns (entry: Option<Entry>)
      requires Valid()
      ensures entry.Some? ==>
                entry.value.id == id
                && Listed(entry.value, EntriesOf(successfulStore, t), EntriesOf(executorFailureStore, t))
      ensures entry.None? ==>
                forall r :: Listed(r, EntriesOf(successfulStore, t), EntriesOf(executorFailureStore, t)) ==> r.id != id
    {
      if t !in byId || id !in byId[t] {
        return None;
      }
      assert Indexed(successfulStore[t], executorFailureStore[t], byId[t]);
      entry := Some(byId[t][id]);
    }

    method GetSuccessfulTasksForEpoch(t: TaskName, e: Epoch) returns (entries: seq<Entry>)
      requires Valid()
      ensures entries == EpochQuery(EntriesOf(successfulStore, t), e)
      ensures if t in successfulStore then entries == EpochQuery(successfulStore[t], e) else entries == []
    {
      if t !in successfulStore {
        return [];
      }
      entries := SelectSorted(successfulStore[t], e);
    }

    method GetExecutorFailuresForEpoch(t: TaskName, e: Epoch) returns (entries: seq<Entry>)
      requires Valid()
      ensures entries == EpochQuery(EntriesOf(executorFailureStore, t), e)
      ensures if t in executorFailureStore then entries == EpochQuery(executorFailureStore[t], e) else entries == []
    {
      if t !in executorFailureStore {
        return [];
      }
      entries := SelectSorted(executorFailureStore[t], e);
    }

    static method SelectSorted(all: seq<Entry>, e: Epoch) returns (entries: seq<Entry>)
      ensures entries == EpochQuery(all, e)
    {
      entries := [];
      for i := 0 to |all|
        invariant entries == Filter(all[..i], InEpoch(e))
      {
        assert all[..i + 1] == all[..i] + [all[i]];
        FilterSnoc(all[..i], all[i], InEpoch(e));
        if e.Contains(all[i].block) {
          entries := entries + [all[i]];
        }
      }
      assert all[..|all|] == all;
      entries := Sort(entries, BlockOf());
    }

    /** `Counter` over the hotkeys of a query. */
    static method CountByHotkey(entries: seq<Entry>) returns (counts: map<Hotkey, nat>)
      ensures counts == Counter(entries)
    {
      counts := map[];
      for i := 0 to |entries|
        invariant counts == Counter(entries[..i])
      {
        assert entries[..i + 1][..i] == entries[..i];
        counts := AddOne(counts, entries[i].hotkey);
      }
      assert entries[..|entries|] == entries;
    }
  }

  function AddOne(counts: map<Hotkey, nat>, h: Hotkey): map<Hotkey, nat> {
    counts[h := if h in counts then counts[h] + 1 else 1]
  }

  function Counter(entries: seq<Entry>): map<Hotkey, nat> {
    if entries == [] then map[] else AddOne(Counter(entries[..|entries| - 1]), entries[|entries| - 1].hotkey)
  }

  /** A hotkey is counted iff it occurs, with the number of its entries. */
  ghost predicate CountsOf(entries: seq<Entry>, counts: map<Hotkey, nat>) {
    && (forall h :: h in counts <==> Filter(entries, ByHotkey(h)) != [])
    && (forall h :: h in counts ==> counts[h] == |Filter(entries, ByHotkey(h))|)
  }

  lemma CountOneMore(entries: seq<Entry>, counts: map<Hotkey, nat>)
    requires entries != [] && CountsOf(entries[..|entries| - 1], counts)
    ensures CountsOf(entries, AddOne(counts, entries[|entries| - 1].hotkey))
  {
    var init, r := entries[..|entries| - 1], entries[|entries| - 1];
    assert entries == init + [r];
    forall h ensures |Filter(entries, ByHotkey(h))| == |Filter(init, ByHotkey(h))| + if r.hotkey == h then 1 else 0 {
      FilterSnoc(init, r, ByHotkey(h));
    }
  }

  ghost function Total(counts: map<Hotkey, nat>): nat
    decreases |counts|
  {
    if counts == map[] then 0
    else
      var h :| h in counts;
      counts[h] + Total(counts - {h})
  }

  lemma {:induction false} TotalWithout(counts: map<Hotkey, nat>, h: Hotkey)
    requires h in counts
    ensures Total(counts) == counts[h] + Total(counts - {h})
    decreases |counts|
  {
    var k :| k in counts && Total(counts) == counts[k] + Total(counts - {k});
    if k != h {
      TotalWithout(counts - {k}, h);
      TotalWithout(counts - {h}, k);
      assert counts - {k} - {h} == counts - {h} - {k};
    }
  }

  lemma TotalUpdate(counts: map<Hotkey, nat>, h: Hotkey, n: nat)
    ensures Total(counts[h := n]) == Total(counts) + n - if h in counts then counts[h] else 0
  {
    TotalWithout(counts[h := n], h);
    assert counts[h := n] - {h} == counts - {h};
    if h in counts {
      TotalWithout(counts, h);
    } else {
      assert counts - {h} == counts;
    }
  }

  lemma {:induction false} CountsAreRight(entries: seq<Entry>)
    ensures CountsOf(entries, Counter(entries))
  {
    if entries != [] {
      CountsAreRight(entries[..|entries| - 1]);
      CountOneMore(entries, Counter(entries[..|entries| - 1]));
    }
  }

  lemma {:induction false} TotalIsLength(entries: seq<Entry>)
    ensures Total(Counter(entries)) == |entries|
  {
    if entries != [] {
      TotalIsLength(entries[..|entries| - 1]);
      TotalOneMore(Counter(entries[..|entries| - 1]), entries[|entries| - 1].hotkey);
    }
  }

  /** Main theorem: the counts of a query are right for every hotkey, and add up to its size. */
  lemma CountsAddUp(entries: seq<Entry>)
    ensures CountsOf(entries, Counter(entries)) && Total(Counter(entries)) == |entries|
  {
    CountsAreRight(entries);
    TotalIsLength(entries);
  }

  lemma TotalOneMore(counts: map<Hotkey, nat>, h: Hotkey)
    ensures Total(AddOne(counts, h)) == Total(counts) + 1
  {
    TotalUpdate(counts, h, if h in counts then counts[h] + 1 else 1);
  }

  /******* Queries *******/

  lemma {:induction false} FilterMultiplicity(entries: seq<Entry>, e: Epoch, r: Entry)
    ensures multiset(Filter(entries, InEpoch(e)))[r] == if e.Contains(r.block) then multiset(entries)[r] else 0
  {
    if entries != [] {
      FilterMultiplicity(entries[1..], e, r);
      assert entries == [entries[0]] + entries[1..];
    }
  }

  /**
   Main theorem: an epoch query returns exactly the entries of the epoch, oldest block first, and entries of
   the same block in the order in which they were added.
   */
  lemma QueryIsChronological(entries: seq<Entry>, e: Epoch, block: int, r: Entry)
    ensures Sorted(EpochQuery(entries, e), BlockOf())
    ensures multiset(EpochQuery(entries, e))[r] == if e.Contains(r.block) then multiset(entries)[r] else 0
    ensures Filter(EpochQuery(entries, e), AtBlock(block)) ==
            if e.Contains(block) then Filter(entries, AtBlock(block)) else []
  {
    var selected := Filter(entries, InEpoch(e));
    SortSorts(selected, BlockOf());
    SortPermutes(selected, BlockOf());
    FilterMultiplicity(entries, e, r);
    SortFilter(selected, BlockOf(), AtBlock(block));
    SameBlockKeepsOrder(selected, block);
    FilterTwice(entries, e, block);
  }

  lemma SameBlockKeepsOrder(entries: seq<Entry>, block: int)
    ensures Sort(Filter(entries, AtBlock(block)), BlockOf()) == Filter(entries, AtBlock(block))
  {
    var same := Filter(entries, AtBlock(block));
    forall i | 0 <= i < |same| ensures same[i].block == block {
      FilterMember(entries, AtBlock(block), same[i]);
    }
    SortOfSorted(same, BlockOf());
  }

  lemma {:induction false} FilterTwice(entries: seq<Entry>, e: Epoch, block: int)
    ensures Filter(Filter(entries, InEpoch(e)), AtBlock(block)) ==
            if e.Contains(block) then Filter(entries, AtBlock(block)) else []
  {
    if entries != [] {
      FilterTwice(entries[1..], e, block);
      var x, rest := entries[0], entries[1..];
      var f := Filter(rest, InEpoch(e));
      FilterCons(x, f, block);
      assert Filter(entries, AtBlock(block)) == (if x.block == block then [x] else []) + Filter(rest, AtBlock(block));
      if e.Contains(x.block) {
        assert Filter(entries, InEpoch(e)) == [x] + f;
      } else {
        assert Filter(entries, InEpoch(e)) == f;
      }
    }
  }

  lemma FilterCons(x: Entry, entries: seq<Entry>, block: int)
    ensures Filter([x] + entries, AtBlock(block))
            == (if x.block == block then [x] else []) + Filter(entries, AtBlock(block))
  {
    assert ([x] + entries)[1..] == entries;
  }

  /**
   Main theorem: of the epochs of one subnet and tempo, exactly one query returns a given entry, as often as
   it was added.
   */
  lemma EntryInExactlyOneEpoch(entries: seq<Entry>, r: Entry, netuid: int, tempo: int, block: int)
    requires tempo > 0 && r in entries
    ensures var own, e := EpochContainingBlock(r.block, netuid, tempo).value,
            EpochContainingBlock(block, netuid, tempo).value;
            multiset(EpochQuery(entries, e))[r] == if e == own then multiset(entries)[r] else 0
    ensures multiset(entries)[r] > 0
  {
    var e := EpochContainingBlock(block, netuid, tempo).value;
    QueryIsChronological(entries, e, r.block, r);
    EpochOfItsBlocks(block, r.block, netuid, tempo);
    assert r in multiset(entries);
  }
}
