/**
 Exactly which sequences of entries recovery accepts: it raises at any other.
 */
module ContextCorruption {
  import opened Options
  import opened StableSort
  import opened ContextLog
  import opened ContextRecovery

  ghost predicate HasCreated(log: seq<LogEntry>) {
    exists i :: 0 <= i < |log| && log[i].data.ContextCreated?
  }

  ghost predicate HasCompleted(log: seq<LogEntry>) {
    exists i :: 0 <= i < |log| && log[i].data.ContextCompleted?
  }

  /** Entries that make no sense without a context; notes and forks are accepted anywhere. */
  predicate NeedsContext(data: EntryData) {
    data.ContextDataInitialized? || data.MessageSent? || data.UserDataChange? || data.ContextCompleted?
  }

  /** What entry number `n` may be after the entries before it. */
  ghost predicate MayFollow(before: seq<LogEntry>, e: LogEntry) {
    && e.stepIdx == |before|
    && !HasCompleted(before)
    && (e.data.ContextCreated? ==> !HasCreated(before))
    && (NeedsContext(e.data) ==> HasCreated(before))
  }

  /** Steps are numbered without a gap, the context is created once and first, and nothing follows its completion. */
  ghost predicate Sane(log: seq<LogEntry>) {
    forall i :: 0 <= i < |log| ==> MayFollow(log[..i], log[i])
  }

  lemma SaneSnoc(log: seq<LogEntry>, e: LogEntry)
    ensures Sane(log + [e]) <==> Sane(log) && MayFollow(log, e)
  {
    hide MayFollow;
    var all := log + [e];
    assert all[..|log|] == log && all[|log|] == e;
    forall i | 0 <= i < |log| ensures all[..i] == log[..i] && all[i] == log[i] {
    }
    if Sane(all) {
      forall i | 0 <= i < |log| ensures MayFollow(log[..i], log[i]) {
        assert MayFollow(all[..i], all[i]);
      }
    }
  }

  lemma HasSnoc(log: seq<LogEntry>, e: LogEntry)
    ensures HasCreated(log + [e]) <==> HasCreated(log) || e.data.ContextCreated?
    ensures HasCompleted(log + [e]) <==> HasCompleted(log) || e.data.ContextCompleted?
  {
    var all := log + [e];
    assert all[|log|] == e && forall i :: 0 <= i < |log| ==> all[i] == log[i];
  }

  lemma {:induction false} FoldAcceptsIff(d: Deltas, log: seq<LogEntry>)
    ensures Fold(d, log).Ok? <==> Sane(log)
    ensures Fold(d, log).Ok? ==>
              var v := Fold(d, log).value;
              && v.next == |log| && (v.done <==> HasCompleted(log))
              && (v.ctx.Some? <==> HasCreated(log) && !HasCompleted(log))
  {
    if log != [] {
      var init, e := log[..|log| - 1], log[|log| - 1];
      assert log == init + [e];
      FoldAcceptsIff(d, init);
      SaneSnoc(init, e);
      HasSnoc(init, e);
      hide Sane;
      hide HasCreated;
      hide HasCompleted;
    }
  }

  /** Main theorem: recovery raises iff the entries of some context are not a sane log. */
  lemma ReplayAcceptsIff(d: Deltas, es: seq<LogEntry>)
    ensures ReplayAll(d, es).Ok? <==> forall c :: Sane(Filter(es, OfContext(c)))
  {
    ReplayIsPerContext(d, es);
    forall c ensures Own(d, es, c).Ok? <==> Sane(Filter(es, OfContext(c))) {
      FoldAcceptsIff(d, Filter(es, OfContext(c)));
    }
  }
}
