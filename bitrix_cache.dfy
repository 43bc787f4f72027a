/** The `BitrixCache` class: its configuration fields, the fluent setters
    that change them, and `resultOf` with the steps it runs. The data cache,
    the tagged cache and the producer are reached only through the ghost
    `log` of calls; their answers come in as parameters. */
module BitrixCacheClass {
  import opened PhpStrings
  import opened CacheTypes
  import opened KeyResolver
  import opened TagCoordinator
  import opened ProtocolDriver

  class BitrixCache {
    var time: int
    var id: string
    var path: string
    var baseDir: string
    var tags: seq<string>
    var clearCache: bool
    var callback: Option<Producer>
    /** The calls made to the data cache, the tagged cache and the producer,
        oldest first. */
    ghost var log: seq<Event>

    /** The tag list holds only trimmed, non-empty strings. */
    ghost predicate Valid()
      reads this`tags
    {
      AllTags(tags)
    }

    function Settings(): Config
      reads this`time, this`id, this`path, this`baseDir, this`tags, this`clearCache
    {
      Config(time, id, path, baseDir, tags, clearCache)
    }

    constructor ()
      ensures Valid()
      ensures Settings() == Config(0, "", "", "cache", [], false)
      ensures callback == None && log == []
    {
      time, id, path, baseDir, tags, clearCache := 0, "", "", "cache", [], false;
      callback := None;
      log := [];
    }

    function GetTime(): int
      reads this`time
    {
      time
    }

    function GetId(): string
      reads this`id
    {
      id
    }

    function GetPath(): string
      reads this`path
    {
      path
    }

    function GetBaseDir(): string
      reads this`baseDir
    {
      baseDir
    }

    predicate IsClearCache()
      reads this`clearCache
    {
      clearCache
    }

    predicate HasTags()
      reads this`tags
    {
      |tags| > 0
    }

    method WithClearCache(clear: bool)
      modifies this`clearCache
      ensures clearCache == clear
    {
      clearCache := clear;
    }

    method ClearTags()
      modifies this`tags
      ensures Valid() && tags == []
    {
      tags := [];
    }

    /** Appends the trimmed tag, unless it is empty. */
    method WithTag(tag: string)
      requires Valid()
      modifies this`tags
      ensures Valid()
      ensures tags == if Trim(tag) != "" then old(tags) + [Trim(tag)] else old(tags)
    {
      var t := Trim(tag);
      if t != "" {
        TrimIdempotent(tag);
        tags := tags + [t];
      }
    }

    /** Appends "iblock_id_<n>" for a positive information block id. */
    method WithIblockTag(iblockId: int)
      requires Valid()
      modifies this`tags
      ensures Valid()
      ensures tags == if iblockId > 0 then old(tags) + [IblockTag(iblockId)] else old(tags)
    {
      if iblockId > 0 {
        tags := tags + [IblockTag(iblockId)];
      }
    }

    method WithTime(t: int)
      modifies this`time
      ensures time == t
    {
      time := t;
    }

    method WithId(newId: string)
      modifies this`id
      ensures id == Trim(newId)
    {
      id := Trim(newId);
    }

    method WithPath(newPath: string)
      modifies this`path
      ensures path == Trim(newPath)
    {
      path := Trim(newPath);
    }

    method WithBaseDir(newBaseDir: string)
      modifies this`baseDir
      ensures baseDir == newBaseDir
    {
      baseDir := newBaseDir;
    }

    /** Fills in the defaults for time, id and path. */
    method SetDefaultParams(md5: string -> string)
      requires callback.Some? && IsHexDigest(md5(Identity(callback.value.site)))
      modifies this`time, this`id, this`path
      ensures Settings() == Resolve(old(Settings()), callback.value.site, md5)
    {
      if GetTime() == 0 {
        WithTime(DefaultTime);
      }
      if Trim(GetId()) == "" {
        HexDigestIsTrimmed(md5(Identity(callback.value.site)));
        WithId(md5(Identity(callback.value.site)));
      }
      if Trim(GetPath()) == "" {
        TrimUnpadded(RootPath);
        WithPath(RootPath);
      }
    }

    /** Opens the tag scope on the path and registers every tag, in order. */
    method StartTagCache()
      modifies this`log
      ensures log == old(log) + TagOpen(path, tags)
    {
      if HasTags() {
        log := log + [TagStart(path)];
        ghost var scope := log;
        var i := 0;
        while i < |tags|
          invariant i <= |tags|
          invariant log == scope + Registrations(tags[..i])
        {
          RegistrationsStep(tags, i);
          log := log + [Register(tags[i])];
          i := i + 1;
        }
        assert tags[..i] == tags;
      }
    }

    method EndTagCache()
      modifies this`log
      ensures log == old(log) + TagCommit(tags)
    {
      if HasTags() {
        log := log + [TagEnd];
      }
    }

    /** Aborts the data cache, and the tag scope when there are tags. */
    method AbortCache()
      modifies this`log
      ensures log == old(log) + AbortAll(tags)
    {
      log := log + [AbortData];
      if HasTags() {
        log := log + [TagAbort];
      }
    }

    /** The part of `execute` that runs once the store has asked for a
        fresh value: call the producer, then commit the wrapped value and
        the tag scope, or abort both when the producer throws or returns
        null. */
    method Produce() returns (reply: Reply)
      requires callback.Some?
      modifies this`log
      ensures log == old(log) + [Invoke] + Closing(Settings(), callback.value.outcome)
      ensures reply == ProducerReply(callback.value.outcome)
    {
      ghost var c := Settings();
      log := log + [Invoke];
      ghost var scope := log;
      match callback.value.outcome
      case Threw(e) =>
        AbortCache();
        reply := Raised(e);
      case Returned(result) =>
        if result.Null? {
          AbortCache();
          reply := Ok(map["result" := result]);
        } else {
          var committed := Wrap(result);
          log := log + [End(committed)];
          EndTagCache();
          reply := Ok(committed);
          ConcatAssoc(scope, [End(committed)], TagCommit(c.tags));
        }
    }

    /** `execute`: `needsCompute` is what `startDataCache` answers, `stored`
        what `getVars` returns. */
    method Execute(needsCompute: bool, stored: Vars) returns (reply: Reply)
      requires callback.Some?
      modifies this`log
      ensures log == old(log) + ExecuteRun(Settings(), needsCompute, callback.value.outcome, stored).events
      ensures reply == ExecuteRun(Settings(), needsCompute, callback.value.outcome, stored).reply
    {
      ghost var c := Settings();
      ghost var before := log;
      var started := [Start(GetTime(), GetId(), GetPath(), GetBaseDir())];
      log := log + started;
      if needsCompute || IsClearCache() {
        StartTagCache();
        reply := Produce();
        ComputedRunRegroup(before, started, TagOpen(c.path, c.tags), Closing(c, callback.value.outcome));
      } else {
        log := log + [GetVars];
        reply := Ok(stored);
      }
    }

    /** `resultOf`: stores the producer, resolves the defaults, purges the
        entry when a refresh is forced, and runs `execute`. */
    method ResultOf(p: Producer, md5: string -> string, needsCompute: bool, stored: Vars) returns (reply: Reply)
      requires Valid() && IsHexDigest(md5(Identity(p.site)))
      modifies this
      ensures Valid() && callback == Some(p)
      ensures Settings() == Resolve(old(Settings()), p.site, md5)
      ensures log == old(log) + ResultOfRun(old(Settings()), p, md5, needsCompute, stored).events
      ensures reply == ResultOfRun(old(Settings()), p, md5, needsCompute, stored).reply
    {
      ghost var before := log;
      ghost var resolved := Resolve(Settings(), p.site, md5);
      callback := Some(p);
      SetDefaultParams(md5);
      if IsClearCache() {
        log := log + [Clean(GetId(), GetPath(), GetBaseDir())];
      }
      assert log == before + Purge(resolved);
      reply := Execute(needsCompute, stored);
      ConcatAssoc(before, Purge(resolved), ExecuteRun(resolved, needsCompute, p.outcome, stored).events);
    }
  }
}
