/** The tag scope that brackets the producer: opened on the path with every
    configured tag registered, then committed or aborted. Nothing happens
    when there are no tags. */
module TagCoordinator {
  import opened PhpStrings
  import opened CacheTypes

  /** What the tag list may hold: trimmed, non-empty strings. */
  predicate IsTag(t: string) {
    t != "" && Trim(t) == t
  }

  predicate AllTags(tags: seq<string>) {
    forall i :: 0 <= i < |tags| ==> IsTag(tags[i])
  }

  const IblockPrefix := "iblock_id_"

  /** The tag `withIblockTag` adds for an information block id. */
  function IblockTag(iblockId: nat): (t: string)
    ensures IsTag(t)
    ensures |t| > |IblockPrefix| && t[..|IblockPrefix|] == IblockPrefix
  {
    var t := IblockPrefix + Decimal(iblockId);
    assert t[0] == 'i' && IsDigit(t[|t| - 1]);
    TrimUnpadded(t);
    t
  }

  /** `registerTag` once per tag, in list order. */
  function Registrations(tags: seq<string>): seq<Event> {
    if tags == [] then [] else Registrations(tags[..|tags| - 1]) + [Register(tags[|tags| - 1])]
  }

  /** Registering one more tag appends one `Register` call. */
  lemma RegistrationsStep(tags: seq<string>, i: nat)
    requires i < |tags|
    ensures Registrations(tags[..i + 1]) == Registrations(tags[..i]) + [Register(tags[i])]
  {
    assert tags[..i + 1][..i] == tags[..i];
  }

  /** The registrations name every tag once, in list order. */
  lemma {:induction false} RegistrationsRegisterTags(tags: seq<string>)
    ensures |Registrations(tags)| == |tags|
    ensures RegisteredTags(Registrations(tags)) == tags
    decreases |tags|
  {
    if tags != [] {
      var init := tags[..|tags| - 1];
      var es := Registrations(tags);
      RegistrationsRegisterTags(init);
      assert es[..|es| - 1] == Registrations(init);
      assert init + [tags[|tags| - 1]] == tags;
    }
  }

  /** `startTagCache`: nothing without tags; otherwise the scope on `path`
      first, followed by one registration per tag. */
  function TagOpen(path: string, tags: seq<string>): (r: seq<Event>)
    ensures tags == [] ==> r == []
    ensures tags != [] ==> |r| == |tags| + 1 && r[0] == TagStart(path)
  {
    if tags == [] then []
    else
      RegistrationsRegisterTags(tags);
      [TagStart(path)] + Registrations(tags)
  }

  /** `endTagCache`: the scope is committed by one call when there are
      tags, and nothing is called otherwise. */
  function TagCommit(tags: seq<string>): (r: seq<Event>)
    ensures |r| == (if tags == [] then 0 else 1)
    ensures TagEnd in r <==> tags != []
  {
    if tags == [] then [] else [TagEnd]
  }

  /** `abortCache`: the data cache is always aborted, first; the scope is
      aborted after it only when there are tags. */
  function AbortAll(tags: seq<string>): (r: seq<Event>)
    ensures |r| == (if tags == [] then 1 else 2)
    ensures r[0] == AbortData && (TagAbort in r <==> tags != [])
  {
    [AbortData] + if tags == [] then [] else [TagAbort]
  }

  /** The tags named by `registerTag` calls, in the order they were made. */
  function RegisteredTags(es: seq<Event>): seq<string> {
    if es == [] then []
    else RegisteredTags(es[..|es| - 1]) + (if es[|es| - 1].Register? then [es[|es| - 1].tag] else [])
  }

  lemma {:induction false} RegisteredTagsConcat(a: seq<Event>, b: seq<Event>)
    ensures RegisteredTags(a + b) == RegisteredTags(a) + RegisteredTags(b)
    decreases |b|
  {
    if b != [] {
      assert (a + b)[..|a + b| - 1] == a + b[..|b| - 1];
      RegisteredTagsConcat(a, b[..|b| - 1]);
    } else {
      assert a + b == a;
    }
  }

  /** Opening the scope registers exactly the configured tags, in order. */
  lemma TagOpenRegistersTags(path: string, tags: seq<string>)
    ensures RegisteredTags(TagOpen(path, tags)) == tags
  {
    if tags != [] {
      RegistrationsRegisterTags(tags);
      RegisteredTagsConcat([TagStart(path)], Registrations(tags));
      assert RegisteredTags([TagStart(path)]) == RegisteredTags([]) + [];
    }
  }

  /** Registrations name no other collaborator call. */
  lemma {:induction false} RegistrationsOnlyRegister(tags: seq<string>, e: Event)
    requires !e.Register?
    ensures e !in Registrations(tags)
    decreases |tags|
  {
    if tags != [] {
      RegistrationsOnlyRegister(tags[..|tags| - 1], e);
    }
  }

  /** Every call the registration loop makes is a `registerTag`. */
  lemma RegistrationsAreRegisters(tags: seq<string>)
    ensures forall e :: e in Registrations(tags) ==> e.Register?
  {
    forall e: Event | !e.Register? ensures e !in Registrations(tags) {
      RegistrationsOnlyRegister(tags, e);
    }
  }

  /** A call sequence without `registerTag` registers no tag. */
  lemma {:induction false} RegisteredTagsNone(es: seq<Event>)
    requires forall e :: e in es ==> !e.Register?
    ensures RegisteredTags(es) == []
    decreases |es|
  {
    if es != [] {
      assert es[|es| - 1] in es;
      RegisteredTagsNone(es[..|es| - 1]);
    }
  }
}
