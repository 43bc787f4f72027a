/** The decision logic of `execute` and `resultOf` as functions from the
    configuration, the store's answers and the producer's outcome to the
    calls made and the reply, with the properties the decorator promises. */
module ProtocolDriver {
  import opened PhpStrings
  import opened CacheTypes
  import opened KeyResolver
  import opened TagCoordinator

  /** The array committed and returned for a non-null producer value: an
      array as it is, anything else under the key "result". */
  function Wrap(v: Value): (r: Vars)
    ensures v.Arr? ==> r == v.entries
    ensures !v.Arr? ==> r.Keys == {"result"} && r["result"] == v
  {
    if v.Arr? then v.entries else map["result" := v]
  }

  /** Whether the producer runs: the store asked for a fresh value, or a
      refresh was forced. */
  predicate Computes(c: Config, needsCompute: bool) {
    needsCompute || c.clearCache
  }

  /** Whether the producer's outcome is committed: a value other than null. */
  predicate Persists(outcome: Outcome) {
    outcome.Returned? && !outcome.value.Null?
  }

  /** The calls after the producer returns or throws: commit the wrapped
      value and then the tag scope, or abort both. */
  function Closing(c: Config, outcome: Outcome): seq<Event> {
    if Persists(outcome) then [End(Wrap(outcome.value))] + TagCommit(c.tags) else AbortAll(c.tags)
  }

  /** What `execute` hands back once the producer has run. */
  function ProducerReply(outcome: Outcome): Reply {
    match outcome
    case Threw(e) => Raised(e)
    case Returned(v) => if v.Null? then Ok(map["result" := Null]) else Ok(Wrap(v))
  }

  /** `execute`, given what `startDataCache` answers (`needsCompute`), what
      `getVars` returns (`stored`) and how the producer ends. */
  function ExecuteRun(c: Config, needsCompute: bool, outcome: Outcome, stored: Vars): (r: Run)
    ensures |r.events| >= 2 && r.events[0] == Start(c.time, c.id, c.path, c.baseDir)
    ensures r.reply.Raised? ==> Computes(c, needsCompute) && outcome == Threw(r.reply.exception)
  {
    var started := [Start(c.time, c.id, c.path, c.baseDir)];
    if Computes(c, needsCompute) then
      Run(started + TagOpen(c.path, c.tags) + [Invoke] + Closing(c, outcome), ProducerReply(outcome))
    else
      Run(started + [GetVars], Ok(stored))
  }

  /** The purge `resultOf` issues before `execute` when a refresh is forced. */
  function Purge(c: Config): seq<Event> {
    if c.clearCache then [Clean(c.id, c.path, c.baseDir)] else []
  }

  /** `resultOf` once the defaults are resolved. */
  function PurgeThenExecute(c: Config, needsCompute: bool, outcome: Outcome, stored: Vars): (r: Run)
    ensures r.reply == ExecuteRun(c, needsCompute, outcome, stored).reply
    ensures |r.events| >= 2
    ensures r.events[0] == if c.clearCache then Clean(c.id, c.path, c.baseDir) else Start(c.time, c.id, c.path, c.baseDir)
  {
    var run := ExecuteRun(c, needsCompute, outcome, stored);
    Run(Purge(c) + run.events, run.reply)
  }

  /** `resultOf(p)` on configuration `c`. */
  function ResultOfRun(c: Config, p: Producer, md5: string -> string, needsCompute: bool, stored: Vars): (r: Run)
    requires IsHexDigest(md5(Identity(p.site)))
    ensures |r.events| >= 2
    ensures var s := r.events[if c.clearCache then 1 else 0];
      s.Start? && s.time != 0 && Trim(s.id) != "" && Trim(s.path) != ""
  {
    ResolveEstablishesDefaults(c, p.site, md5);
    PurgeThenExecute(Resolve(c, p.site, md5), needsCompute, p.outcome, stored)
  }

  /** The values handed to `endDataCache`, in the order of the calls. */
  function Commits(es: seq<Event>): seq<Vars> {
    if es == [] then []
    else Commits(es[..|es| - 1]) + (if es[|es| - 1].End? then [es[|es| - 1].vars] else [])
  }

  lemma {:induction false} CommitsConcat(a: seq<Event>, b: seq<Event>)
    ensures Commits(a + b) == Commits(a) + Commits(b)
    decreases |b|
  {
    if b != [] {
      assert (a + b)[..|a + b| - 1] == a + b[..|b| - 1];
      CommitsConcat(a, b[..|b| - 1]);
    } else {
      assert a + b == a;
    }
  }

  lemma {:induction false} CommitsNone(es: seq<Event>)
    requires forall e :: e in es ==> !e.End?
    ensures Commits(es) == []
    decreases |es|
  {
    if es != [] {
      assert es[|es| - 1] in es;
      CommitsNone(es[..|es| - 1]);
    }
  }

  lemma ConcatAssoc(a: seq<Event>, b: seq<Event>, c: seq<Event>)
    ensures a + b + c == a + (b + c)
  {
  }

  /** Regrouping of a computing run's calls after an earlier `log`. */
  lemma ComputedRunRegroup(before: seq<Event>, started: seq<Event>, scope: seq<Event>, close: seq<Event>)
    ensures before + started + scope + [Invoke] + close == before + (started + scope + [Invoke] + close)
  {
  }

  lemma CountSplit(head: seq<Event>, scope: seq<Event>, close: seq<Event>, e: Event)
    ensures multiset(head + scope + [Invoke] + close)[e]
      == multiset(head)[e] + multiset(scope)[e] + multiset([Invoke])[e] + multiset(close)[e]
  {
  }

  /** Opening the tag scope calls `startTagCache` once on the given path
      when there are tags, and never otherwise. */
  lemma TagOpenStartsOnce(path: string, tags: seq<string>)
    ensures multiset(TagOpen(path, tags))[TagStart(path)] == if tags == [] then 0 else 1
    ensures forall p :: TagStart(p) in TagOpen(path, tags) ==> p == path
  {
    RegistrationsAreRegisters(tags);
    RegistrationsOnlyRegister(tags, TagStart(path));
  }

  /** Opening the tag scope neither closes anything nor runs the producer. */
  lemma TagOpenClosesNothing(path: string, tags: seq<string>, e: Event)
    requires e == TagEnd || e == TagAbort || e == AbortData || e == Invoke || e.End?
    ensures multiset(TagOpen(path, tags))[e] == 0
  {
    RegistrationsOnlyRegister(tags, e);
  }

  lemma TagOpenCommitsNothing(path: string, tags: seq<string>)
    ensures Commits(TagOpen(path, tags)) == []
  {
    RegistrationsAreRegisters(tags);
    CommitsNone(TagOpen(path, tags));
  }

  /** The closing calls, counted. */
  lemma ClosingCounts(c: Config, outcome: Outcome)
    ensures var m := multiset(Closing(c, outcome));
      && m[AbortData] == (if Persists(outcome) then 0 else 1)
      && m[TagEnd] == (if Persists(outcome) && c.tags != [] then 1 else 0)
      && m[TagAbort] == (if !Persists(outcome) && c.tags != [] then 1 else 0)
      && m[Invoke] == 0
      && (forall p :: TagStart(p) !in Closing(c, outcome))
  {
  }

  /** The closing calls commit the wrapped value exactly when it persists. */
  lemma ClosingCommits(c: Config, outcome: Outcome)
    ensures Commits(Closing(c, outcome)) == if Persists(outcome) then [Wrap(outcome.value)] else []
  {
    if Persists(outcome) {
      var w := Wrap(outcome.value);
      CommitsConcat([End(w)], TagCommit(c.tags));
      CommitsNone(TagCommit(c.tags));
      assert Commits([End(w)]) == Commits([]) + [w];
    } else {
      CommitsNone(Closing(c, outcome));
    }
  }

  /** On a store hit without a forced refresh the producer is not called,
      no tag scope is opened, and the reply is what `getVars` returns. */
  lemma HitReturnsStoredVars(c: Config, needsCompute: bool, outcome: Outcome, stored: Vars)
    requires !needsCompute && !c.clearCache
    ensures ExecuteRun(c, needsCompute, outcome, stored).events == [Start(c.time, c.id, c.path, c.baseDir), GetVars]
    ensures ExecuteRun(c, needsCompute, outcome, stored).reply == Ok(stored)
  {
  }

  /** A forced refresh purges the entry before the store is asked, and the
      producer runs whatever the store answers. */
  lemma ForceRefreshPurgesThenComputes(c: Config, needsCompute: bool, outcome: Outcome, stored: Vars)
    requires c.clearCache
    ensures var es := PurgeThenExecute(c, needsCompute, outcome, stored).events;
      |es| >= 3 && es[0] == Clean(c.id, c.path, c.baseDir) && es[1] == Start(c.time, c.id, c.path, c.baseDir)
      && Invoke in es
  {
  }

  /** The producer is called exactly when the store asked for a value or a
      refresh was forced, and at most once. */
  lemma ProducerRunsOnlyWhenNeeded(c: Config, needsCompute: bool, outcome: Outcome, stored: Vars)
    ensures multiset(ExecuteRun(c, needsCompute, outcome, stored).events)[Invoke]
      == if Computes(c, needsCompute) then 1 else 0
  {
    if Computes(c, needsCompute) {
      TagOpenClosesNothing(c.path, c.tags, Invoke);
      ClosingCounts(c, outcome);
      CountSplit([Start(c.time, c.id, c.path, c.baseDir)], TagOpen(c.path, c.tags), Closing(c, outcome), Invoke);
    }
  }

  /** Only a non-null value is committed, it is committed once, and it is
      the value returned; an exception or null commits nothing. */
  lemma CommitsOnlyReturnedValues(c: Config, needsCompute: bool, outcome: Outcome, stored: Vars)
    ensures var run := ExecuteRun(c, needsCompute, outcome, stored);
      Commits(run.events)
        == if Computes(c, needsCompute) && Persists(outcome) then [run.reply.vars] else []
  {
    var started := [Start(c.time, c.id, c.path, c.baseDir)];
    CommitsNone(started);
    if Computes(c, needsCompute) {
      var scope := TagOpen(c.path, c.tags);
      TagOpenCommitsNothing(c.path, c.tags);
      ClosingCommits(c, outcome);
      CommitsNone([Invoke]);
      CommitsConcat(started, scope);
      CommitsConcat(started + scope, [Invoke]);
      CommitsConcat(started + scope + [Invoke], Closing(c, outcome));
    } else {
      CommitsNone(started + [GetVars]);
    }
  }

  lemma RegisteredTagsOfRun(head: seq<Event>, scope: seq<Event>, close: seq<Event>)
    requires RegisteredTags(head) == [] && RegisteredTags(close) == []
    ensures RegisteredTags(head + scope + [Invoke] + close) == RegisteredTags(scope)
  {
    RegisteredTagsNone([Invoke]);
    RegisteredTagsConcat(head, scope);
    RegisteredTagsConcat(head + scope, [Invoke]);
    RegisteredTagsConcat(head + scope + [Invoke], close);
  }

  /** The tags are registered, in list order, exactly when the producer runs. */
  lemma TagsRegisteredInOrder(c: Config, needsCompute: bool, outcome: Outcome, stored: Vars)
    ensures RegisteredTags(ExecuteRun(c, needsCompute, outcome, stored).events)
      == if Computes(c, needsCompute) then c.tags else []
  {
    var started := [Start(c.time, c.id, c.path, c.baseDir)];
    RegisteredTagsNone(started);
    if Computes(c, needsCompute) {
      TagOpenRegistersTags(c.path, c.tags);
      RegisteredTagsNone(Closing(c, outcome));
      RegisteredTagsOfRun(started, TagOpen(c.path, c.tags), Closing(c, outcome));
    } else {
      RegisteredTagsNone(started + [GetVars]);
    }
  }

  /** Counting the closing calls of a run that computes, piece by piece. */
  lemma ClosingsOfRun(head: seq<Event>, scope: seq<Event>, close: seq<Event>, persists: bool, tagged: bool)
    requires multiset(head)[TagEnd] == 0 && multiset(head)[TagAbort] == 0 && multiset(head)[AbortData] == 0
    requires multiset(scope)[TagEnd] == 0 && multiset(scope)[TagAbort] == 0 && multiset(scope)[AbortData] == 0
    requires multiset(close)[AbortData] == (if persists then 0 else 1)
    requires multiset(close)[TagEnd] == (if persists && tagged then 1 else 0)
    requires multiset(close)[TagAbort] == (if !persists && tagged then 1 else 0)
    ensures var m := multiset(head + scope + [Invoke] + close);
      && m[TagEnd] == (if persists && tagged then 1 else 0)
      && m[TagAbort] == (if !persists && tagged then 1 else 0)
      && m[AbortData] == (if persists then 0 else 1)
  {
    CountSplit(head, scope, close, TagEnd);
    CountSplit(head, scope, close, TagAbort);
    CountSplit(head, scope, close, AbortData);
  }

  /** The tag scope is opened, on the configured path, exactly when the
      producer runs with tags configured, and never on another path. */
  lemma TagScopeOpenedWhenComputing(c: Config, needsCompute: bool, outcome: Outcome, stored: Vars)
    ensures var es := ExecuteRun(c, needsCompute, outcome, stored).events;
      && multiset(es)[TagStart(c.path)] == (if Computes(c, needsCompute) && c.tags != [] then 1 else 0)
      && (forall p :: TagStart(p) in es ==> p == c.path)
  {
    if Computes(c, needsCompute) {
      var head := [Start(c.time, c.id, c.path, c.baseDir)];
      TagOpenStartsOnce(c.path, c.tags);
      ClosingCounts(c, outcome);
      CountSplit(head, TagOpen(c.path, c.tags), Closing(c, outcome), TagStart(c.path));
    }
  }

  /** How often `execute` calls each closing operation. */
  lemma ClosingCallsOfRun(c: Config, needsCompute: bool, outcome: Outcome, stored: Vars)
    ensures var m := multiset(ExecuteRun(c, needsCompute, outcome, stored).events);
      var computes := Computes(c, needsCompute);
      && m[TagEnd] == (if computes && Persists(outcome) && c.tags != [] then 1 else 0)
      && m[TagAbort] == (if computes && !Persists(outcome) && c.tags != [] then 1 else 0)
      && m[AbortData] == (if computes && !Persists(outcome) then 1 else 0)
  {
    if Computes(c, needsCompute) {
      var head := [Start(c.time, c.id, c.path, c.baseDir)];
      TagOpenClosesNothing(c.path, c.tags, TagEnd);
      TagOpenClosesNothing(c.path, c.tags, TagAbort);
      TagOpenClosesNothing(c.path, c.tags, AbortData);
      ClosingCounts(c, outcome);
      ClosingsOfRun(head, TagOpen(c.path, c.tags), Closing(c, outcome), Persists(outcome), c.tags != []);
    }
  }

  /** Once opened, the tag scope is closed exactly once: by a commit when
      the data cache commits and by an abort when the data cache aborts.
      The data cache transaction that the producer fills is itself closed
      exactly once. */
  lemma TagScopeClosedWithDataCache(c: Config, needsCompute: bool, outcome: Outcome, stored: Vars)
    ensures var es := ExecuteRun(c, needsCompute, outcome, stored).events;
      var m := multiset(es);
      && m[TagEnd] + m[TagAbort] == (if Computes(c, needsCompute) && c.tags != [] then 1 else 0)
      && m[AbortData] + |Commits(es)| == (if Computes(c, needsCompute) then 1 else 0)
      && (c.tags != [] ==> m[TagAbort] == m[AbortData] && m[TagEnd] == |Commits(es)|)
  {
    CommitsOnlyReturnedValues(c, needsCompute, outcome, stored);
    ClosingCallsOfRun(c, needsCompute, outcome, stored);
  }

  /** The order of the closing calls: a committed value is stored before
      the tag scope is committed, and an abort of the data cache comes
      before the abort of the scope; both come last. */
  lemma ClosingOrder(c: Config, needsCompute: bool, outcome: Outcome, stored: Vars)
    requires Computes(c, needsCompute)
    ensures var es := ExecuteRun(c, needsCompute, outcome, stored).events;
      var n := |es|;
      if Persists(outcome) then
        if c.tags == [] then es[n - 1] == End(Wrap(outcome.value))
        else n >= 2 && es[n - 2] == End(Wrap(outcome.value)) && es[n - 1] == TagEnd
      else
        if c.tags == [] then es[n - 1] == AbortData
        else n >= 2 && es[n - 2] == AbortData && es[n - 1] == TagAbort
  {
  }

  /** The reply: an exception propagates unchanged, null gives
      ['result' => null], an array comes back as it is and any other value
      v as ['result' => v]. */
  lemma ReplyShape(c: Config, needsCompute: bool, outcome: Outcome, stored: Vars)
    requires Computes(c, needsCompute)
    ensures var reply := ExecuteRun(c, needsCompute, outcome, stored).reply;
      match outcome
      case Threw(e) => reply == Raised(e)
      case Returned(v) =>
        if v.Arr? then reply == Ok(v.entries)
        else reply == Ok(map["result" := v]) && "result" in reply.vars
  {
  }
}
