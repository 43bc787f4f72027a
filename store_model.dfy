/** A reference reading of the event log: a data cache that keeps one array
    per (id, path, baseDir) and is changed only by `clean`, `startDataCache`,
    `endDataCache` and `abortDataCache`. Expiry is the store's own affair and
    is not part of it. Against it, repeated invocations behave as the
    decorator promises: computed once, and never cached after a failure. */
module StoreModel {
  import opened CacheTypes
  import opened TagCoordinator
  import opened ProtocolDriver

  datatype Address = Address(id: string, path: string, baseDir: string)

  /** The entries, and the address `startDataCache` opened for writing on a
      miss, if any. */
  datatype Store = Store(entries: map<Address, Vars>, writing: Option<Address>)

  function AddressOf(c: Config): Address {
    Address(c.id, c.path, c.baseDir)
  }

  /** The effect of one call on the store. */
  function Step(s: Store, e: Event): Store {
    match e
    case Clean(id, path, baseDir) => s.(entries := s.entries - {Address(id, path, baseDir)})
    case Start(_, id, path, baseDir) =>
      var a := Address(id, path, baseDir);
      s.(writing := if a in s.entries then None else Some(a))
    case End(vars) =>
      if s.writing.Some? then Store(s.entries[s.writing.value := vars], None) else s
    case AbortData => s.(writing := None)
    case _ => s
  }

  /** The effect of a sequence of calls, oldest first. */
  function Replay(s: Store, es: seq<Event>): Store
    decreases |es|
  {
    if es == [] then s else Replay(Step(s, es[0]), es[1..])
  }

  lemma {:induction false} ReplayConcat(s: Store, a: seq<Event>, b: seq<Event>)
    ensures Replay(s, a + b) == Replay(Replay(s, a), b)
    decreases |a|
  {
    if a != [] {
      assert (a + b)[1..] == a[1..] + b;
      ReplayConcat(Step(s, a[0]), a[1..], b);
    } else {
      assert a + b == b;
    }
  }

  /** The tagged cache's calls leave the data cache alone. */
  lemma {:induction false} ReplayTagOpen(s: Store, path: string, tags: seq<string>)
    ensures Replay(s, TagOpen(path, tags)) == s
  {
    if tags != [] {
      ReplayConcat(s, [TagStart(path)], Registrations(tags));
      ReplayRegistrations(s, tags);
    }
  }

  lemma {:induction false} ReplayRegistrations(s: Store, tags: seq<string>)
    ensures Replay(s, Registrations(tags)) == s
    decreases |tags|
  {
    if tags != [] {
      var init := tags[..|tags| - 1];
      ReplayConcat(s, Registrations(init), [Register(tags[|tags| - 1])]);
      ReplayRegistrations(s, init);
    }
  }

  /** The store after the purge that `resultOf` may issue. */
  function Purged(s: Store, c: Config): Store {
    Replay(s, Purge(c))
  }

  /** `resultOf` against the store, with the configuration already resolved:
      `startDataCache` reports a miss exactly when there is no entry left
      after the purge, and `getVars` returns the entry. */
  function Serve(s: Store, c: Config, outcome: Outcome): (Run, Store) {
    var a := AddressOf(c);
    var p := Purged(s, c);
    var miss := a !in p.entries;
    var run := PurgeThenExecute(c, miss, outcome, if miss then map[] else p.entries[a]);
    (run, Replay(s, run.events))
  }

  /** The purge removes the entry at the configured address and nothing else. */
  lemma PurgeRemovesEntry(s: Store, c: Config)
    ensures Purged(s, c).writing == s.writing
    ensures Purged(s, c).entries == if c.clearCache then s.entries - {AddressOf(c)} else s.entries
  {
    if c.clearCache {
      assert Replay(s, Purge(c)) == Replay(Step(s, Purge(c)[0]), []);
    }
  }

  lemma ReplayOfRun(p: Store, head: seq<Event>, scope: seq<Event>, close: seq<Event>)
    requires Replay(Replay(p, head), scope) == Replay(p, head)
    ensures Replay(p, head + scope + [Invoke] + close) == Replay(Replay(p, head), close)
  {
    var q := Replay(p, head);
    ReplayConcat(p, head + scope + [Invoke], close);
    ReplayConcat(p, head + scope, [Invoke]);
    ReplayConcat(p, head, scope);
    assert Replay(q, [Invoke]) == Replay(Step(q, Invoke), []);
  }

  /** The closing calls store the wrapped value in the open slot, or drop it. */
  lemma ReplayClosing(q: Store, c: Config, outcome: Outcome)
    requires q.writing.Some?
    ensures Replay(q, Closing(c, outcome))
      == if Persists(outcome) then Store(q.entries[q.writing.value := Wrap(outcome.value)], None)
         else q.(writing := None)
  {
    if Persists(outcome) {
      var w := Wrap(outcome.value);
      ReplayConcat(q, [End(w)], TagCommit(c.tags));
      assert Replay(q, [End(w)]) == Replay(Step(q, End(w)), []);
    } else {
      var tail := AbortAll(c.tags)[1..];
      assert AbortAll(c.tags) == [AbortData] + tail;
      ReplayConcat(q, [AbortData], tail);
      assert Replay(q, [AbortData]) == Replay(Step(q, AbortData), []);
    }
  }

  /** `execute` against a store that answers consistently: on a miss a
      persisting value is stored under the configured address; otherwise
      the entries stay as they are. */
  lemma ReplayExecute(p: Store, c: Config, miss: bool, outcome: Outcome, stored: Vars)
    requires miss == (AddressOf(c) !in p.entries)
    requires c.clearCache ==> miss
    ensures var s' := Replay(p, ExecuteRun(c, miss, outcome, stored).events);
      && s'.writing == None
      && s'.entries == if miss && Persists(outcome) then p.entries[AddressOf(c) := Wrap(outcome.value)] else p.entries
  {
    var head := [Start(c.time, c.id, c.path, c.baseDir)];
    var q := Step(p, head[0]);
    assert Replay(p, head) == Replay(q, []);
    if Computes(c, miss) {
      ReplayTagOpen(q, c.path, c.tags);
      ReplayOfRun(p, head, TagOpen(c.path, c.tags), Closing(c, outcome));
      ReplayClosing(q, c, outcome);
    } else {
      ReplayConcat(p, head, [GetVars]);
      assert Replay(q, [GetVars]) == Replay(Step(q, GetVars), []);
    }
  }

  /** The store after one `resultOf`: a committed value is stored under the
      configured address and nothing else changes but the purge. */
  lemma ServeEffect(s: Store, c: Config, outcome: Outcome)
    ensures var p := Purged(s, c);
      var miss := AddressOf(c) !in p.entries;
      var (run, s') := Serve(s, c, outcome);
      && s'.writing == None
      && s'.entries == if miss && Persists(outcome) then p.entries[AddressOf(c) := run.reply.vars] else p.entries
  {
    var a := AddressOf(c);
    var p := Purged(s, c);
    var miss := a !in p.entries;
    var stored := if miss then map[] else p.entries[a];
    PurgeRemovesEntry(s, c);
    ReplayConcat(s, Purge(c), ExecuteRun(c, miss, outcome, stored).events);
    ReplayExecute(p, c, miss, outcome, stored);
  }

  /** A second identical call after a successful one, without a forced
      refresh, neither runs the producer nor changes the store, and it
      returns what the first call returned. */
  lemma RepeatCallServesCachedValue(s: Store, c: Config, v: Value)
    requires !c.clearCache && v != Null
    ensures var (run1, s1) := Serve(s, c, Returned(v));
      var (run2, s2) := Serve(s1, c, Returned(v));
      && Invoke !in run2.events
      && run2.reply == run1.reply
      && s2 == s1
  {
    var (run1, s1) := Serve(s, c, Returned(v));
    ServeEffect(s, c, Returned(v));
    ServeEffect(s1, c, Returned(v));
    PurgeRemovesEntry(s, c);
    PurgeRemovesEntry(s1, c);
    ProducerRunsOnlyWhenNeeded(c, false, Returned(v), s1.entries[AddressOf(c)]);
  }

  /** A call whose producer throws or returns null stores nothing; a later
      identical call runs the producer again exactly when this one did. */
  lemma FailedCallCachesNothing(s: Store, c: Config, outcome: Outcome, later: Outcome)
    requires !Persists(outcome)
    ensures var (run1, s1) := Serve(s, c, outcome);
      var (run2, _) := Serve(s1, c, later);
      && s1.entries == Purged(s, c).entries
      && (Invoke in run2.events <==> Invoke in run1.events)
  {
    var (run1, s1) := Serve(s, c, outcome);
    var a := AddressOf(c);
    ServeEffect(s, c, outcome);
    PurgeRemovesEntry(s, c);
    PurgeRemovesEntry(s1, c);
    var p := Purged(s, c);
    var p1 := Purged(s1, c);
    assert (a in p1.entries) == (a in p.entries);
    ProducerRunsOnlyWhenNeeded(c, a !in p.entries, outcome, if a !in p.entries then map[] else p.entries[a]);
    ProducerRunsOnlyWhenNeeded(c, a !in p1.entries, later, if a !in p1.entries then map[] else p1.entries[a]);
  }

  /** With a forced refresh the producer runs even when the store holds a
      value for the address, and the old value is gone before it runs. */
  lemma ForcedRefreshBypassesStore(s: Store, c: Config, outcome: Outcome)
    requires c.clearCache
    ensures var (run, _) := Serve(s, c, outcome);
      Invoke in run.events && AddressOf(c) !in Purged(s, c).entries
  {
    var p := Purged(s, c);
    var a := AddressOf(c);
    PurgeRemovesEntry(s, c);
    ProducerRunsOnlyWhenNeeded(c, a !in p.entries, outcome, map[]);
  }
}
