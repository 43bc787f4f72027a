# BitrixCache — a Dafny model

`BitrixCache` is a memoizing decorator over the Bitrix data cache. The caller
configures it with fluent setters: validity time, cache id, path, base
directory, tags and a forced-refresh flag. Then it calls
`resultOf(callback)`. `resultOf` fills in defaults for time, id and path,
purges the entry when a refresh is forced, and opens a data-cache
transaction. On a miss, or on a forced refresh, it opens a tag scope, runs
the callback, and then either commits the value and the scope or aborts both.
On a hit it returns what the store holds.

The model has seven modules:

- `PhpStrings` (`php_strings.dfy`): PHP's `trim` and the decimal rendering
  of a line number, with their properties.
- `CacheTypes` (`cache_types.dfy`): PHP values, the producer, the
  configuration, and one `Event` per call the class makes to the data cache,
  the tagged cache or the producer.
- `KeyResolver` (`key_resolver.dfy`): the defaults of `setDefaultParams` as
  the function `Resolve`. It also holds two versions of the call-site
  string that is hashed into the default id. `LegacyIdentity` is the string
  the code builds. `Identity` is the corrected string, and `Resolve` uses
  it (see the findings at the end).
- `TagCoordinator` (`tag_coordinator.dfy`): the calls `startTagCache`,
  `endTagCache` and `abortCache` make to the tagged cache.
- `ProtocolDriver` (`protocol_driver.dfy`): `execute` and `resultOf` as
  pure functions from the configuration, the store's answers and the
  producer's outcome to the calls made and the reply (`ExecuteRun`,
  `PurgeThenExecute`, `ResultOfRun`). Its lemmas hold the properties of the
  protocol.
- `StoreModel` (`store_model.dfy`): a reference data cache that replays the
  call log. Against it, the lemmas show that a successful value is served
  again without recomputation, that a throwing or null producer caches
  nothing, and that a forced refresh bypasses the stored value.
- `BitrixCacheClass` (`bitrix_cache.dfy`): the class itself.
  - It has the PHP fields, plus a ghost `log` of collaborator calls.
  - The setters have field-level `modifies` frames.
  - `StartTagCache` is a loop over the tags.
  - Each of `SetDefaultParams`, `Execute` and `ResultOf` is proved equal to
    its specification function in `KeyResolver` or `ProtocolDriver`.

What the model takes as parameters instead of calling it:

- The store's answer to `startDataCache` is the boolean `needsCompute`.
- What `getVars` returns is `stored`.
- The callback is a `Producer`: its definition site (file, start line, end
  line) and how calling it ends (`Threw(e)` or `Returned(v)`).
- `md5` is a function parameter. It must return 32 lower-case hexadecimal
  digits for the identity string, as PHP's `md5` does.

## Model

| member | source | states |
|---|---|---|
| PhpStrings.TrimLeftSpec | src/main/BitrixCache.php:169 | The left trim keeps a suffix of the input that does not start with a blank. Everything it drops is one of PHP's six trim characters. |
| PhpStrings.TrimRightSpec | src/main/BitrixCache.php:169 | The right trim keeps a prefix that does not end with a blank. Everything it drops is blank. |
| PhpStrings.Trim | src/main/BitrixCache.php:169 | PHP's `trim`: the result is no longer than its input and neither starts nor ends with a blank. |
| PhpStrings.TrimUnpadded | src/main/BitrixCache.php:226 | A string with no blank at either end is returned unchanged by `trim`. |
| PhpStrings.TrimIdempotent | src/main/BitrixCache.php:169 | Trimming twice is the same as trimming once, so a tag that was stored trimmed stays trimmed. |
| PhpStrings.TrimBlankIff | src/main/BitrixCache.php:82 | `trim(s) == ''` holds exactly when every character of `s` is blank: the test `setDefaultParams` uses for a missing id or path. |
| PhpStrings.Digit | src/main/BitrixCache.php:84 | The character for a digit value below ten is a decimal digit. |
| PhpStrings.Decimal | src/main/BitrixCache.php:84 | The string form of a line number is non-empty and all digits. It starts with '0' only for zero, and it is one character long exactly for values below ten. |
| PhpStrings.DecimalInjective | src/main/BitrixCache.php:84 | Different line numbers have different string forms. |
| KeyResolver.LegacyIdentity | src/main/BitrixCache.php:84 | The string the code hashes starts with the file name. Everything after it is one run of digits, with nothing marking where the start line ends. |
| KeyResolver.CollidingLineNumbers | src/main/BitrixCache.php:84 | The decimal forms of lines 10, 1112, 101 and 112, as PHP renders them in the concatenation. |
| KeyResolver.LegacyIdentityCollides | src/main/BitrixCache.php:84 | The hash input as the source builds it: two different call sites of one file, lines 10–1112 and 101–112, give the same string. |
| KeyResolver.SplitAtColon | src/main/BitrixCache.php:84 | A digit string followed by ':' is recovered uniquely from the concatenation. |
| KeyResolver.IdentityInjective | src/main/BitrixCache.php:84 | The corrected hash input (start line, ':', end line, ':', file) is injective in the call site. |
| KeyResolver.HexDigestIsTrimmed | src/main/BitrixCache.php:84 | An md5 digest is non-empty and `trim` leaves it unchanged, so `withId` stores it as it is. |
| KeyResolver.Resolve | src/main/BitrixCache.php:76-90 | The resolved time is non-zero, and a non-zero time is kept. The resolved path is not blank, and a non-blank path is kept. A non-blank id is kept. baseDir, tags and clearCache are untouched. The default id is hashed from the corrected identity (see "## Left out"). |
| KeyResolver.ResolveEstablishesDefaults | src/main/BitrixCache.php:76-90 | After default resolution: time is non-zero; id and path are not blank. A non-zero time, non-blank id and non-blank path are kept. baseDir, tags and clearCache are untouched. |
| KeyResolver.ResolveIdempotent | src/main/BitrixCache.php:76-90 | Resolving the defaults a second time changes nothing. |
| KeyResolver.ResolveKeepsResolved | src/main/BitrixCache.php:76-90 | A configuration whose three fields are already set is left as it is. |
| KeyResolver.DefaultIdFollowsCallSite | src/main/BitrixCache.php:82-85 | Two blank-id configurations whose producers come from one call site get the same default id. The second clause is about the corrected identity, not the code as written: producers from different call sites hash different strings. |
| TagCoordinator.IblockTag | src/main/BitrixCache.php:185 | The tag of an information block is "iblock_id_" followed by the id. It is a valid tag: non-empty and trimmed. |
| TagCoordinator.RegistrationsStep | src/main/BitrixCache.php:301-303 | One more loop iteration appends one `registerTag` call for the next tag. |
| TagCoordinator.RegistrationsRegisterTags | src/main/BitrixCache.php:301-303 | The loop makes one `registerTag` call per tag, and the tags registered are the list, in order. |
| TagCoordinator.TagOpen | src/main/BitrixCache.php:296-305 | `startTagCache` makes no call without tags. With tags it makes one call per tag plus one, and the first is `startTagCache(path)`. |
| TagCoordinator.TagCommit | src/main/BitrixCache.php:311-316 | `endTagCache` commits the scope with one call exactly when there are tags. |
| TagCoordinator.AbortAll | src/main/BitrixCache.php:324-330 | `abortCache` always aborts the data cache first. It aborts the scope with a second call exactly when there are tags. |
| TagCoordinator.RegisteredTagsConcat | src/main/BitrixCache.php:301-303 | The tags registered by two call sequences in a row are those of the first followed by those of the second. |
| TagCoordinator.TagOpenRegistersTags | src/main/BitrixCache.php:296-305 | Opening the tag scope registers exactly the configured tags, in list order. |
| TagCoordinator.RegistrationsOnlyRegister | src/main/BitrixCache.php:301-303 | The loop makes no call other than `registerTag`. |
| TagCoordinator.RegistrationsAreRegisters | src/main/BitrixCache.php:301-303 | Every call the tag loop makes is a `registerTag`. |
| TagCoordinator.RegisteredTagsNone | src/main/BitrixCache.php:302 | A call sequence without `registerTag` registers nothing. |
| ProtocolDriver.Wrap | src/main/BitrixCache.php:120-122 | An array result is committed and returned as it is. Any other value v becomes an array whose only key is "result", holding v. |
| ProtocolDriver.ExecuteRun | src/main/BitrixCache.php:96-132 | `execute` always calls `startDataCache` first, even on a forced refresh, and makes at least two calls. It raises only the producer's own exception, and only when the producer ran. |
| ProtocolDriver.PurgeThenExecute | src/main/BitrixCache.php:61-71 | The first call is `clean` when a refresh is forced, and `startDataCache` otherwise. The purge does not change the reply. |
| ProtocolDriver.ResultOfRun | src/main/BitrixCache.php:61-71 | `startDataCache` is never asked with a zero time, a blank id or a blank path. It is the first call, or the second after the purge. |
| ProtocolDriver.CommitsConcat | src/main/BitrixCache.php:124 | The values committed by two call sequences in a row are those of the first followed by those of the second. |
| ProtocolDriver.CommitsNone | src/main/BitrixCache.php:124 | A call sequence without `endDataCache` commits nothing. |
| ProtocolDriver.TagOpenStartsOnce | src/main/BitrixCache.php:296-305 | Opening the tag scope calls `startTagCache` once, on the configured path, when there are tags, and never otherwise. |
| ProtocolDriver.TagOpenClosesNothing | src/main/BitrixCache.php:296-305 | Opening the tag scope neither closes a scope, nor aborts the data cache, nor runs the producer, nor commits. |
| ProtocolDriver.TagOpenCommitsNothing | src/main/BitrixCache.php:296-305 | Opening the tag scope commits no value. |
| ProtocolDriver.ClosingCounts | src/main/BitrixCache.php:104-127 | After the producer: `abortDataCache` is called once when the value does not persist. `endTagCache` is called once when it persists and there are tags. `abortTagCache` is called once when it does not persist and there are tags. |
| ProtocolDriver.ClosingCommits | src/main/BitrixCache.php:104-127 | After the producer, the wrapped value is committed once if it persists, and nothing is committed otherwise. |
| ProtocolDriver.HitReturnsStoredVars | src/main/BitrixCache.php:98-131 | On a hit without a forced refresh, `execute` calls `startDataCache` and `getVars` and nothing else. No producer runs and no tag scope opens. The reply is what `getVars` returns. |
| ProtocolDriver.ForceRefreshPurgesThenComputes | src/main/BitrixCache.php:66-101 | With `clearCache` set, `clean(id, path, baseDir)` is the first call and `startDataCache` the second. The producer runs whatever the store answers. |
| ProtocolDriver.ProducerRunsOnlyWhenNeeded | src/main/BitrixCache.php:98-106 | The producer runs exactly once on a miss or a forced refresh, and never otherwise. |
| ProtocolDriver.CommitsOnlyReturnedValues | src/main/BitrixCache.php:104-127 | A value is committed only when the producer runs and returns non-null. It is committed once, and it equals the returned array. An exception or null commits nothing. |
| ProtocolDriver.TagsRegisteredInOrder | src/main/BitrixCache.php:296-305 | The tags registered in one call are the configured list, in order, when the producer runs, and none otherwise. |
| ProtocolDriver.ClosingsOfRun | src/main/BitrixCache.php:104-127 | The closing calls of a computing run are those made after the producer. |
| ProtocolDriver.TagScopeOpenedWhenComputing | src/main/BitrixCache.php:98-102 | `startTagCache` is called once, on the configured path, exactly when the producer runs and tags are set. It is never called on another path. |
| ProtocolDriver.ClosingCallsOfRun | src/main/BitrixCache.php:104-127 | How often `execute` calls `endTagCache`, `abortTagCache` and `abortDataCache`, for every combination of hit/miss, outcome and tags. |
| ProtocolDriver.TagScopeClosedWithDataCache | src/main/BitrixCache.php:311-330 | An opened tag scope is closed exactly once. It is committed when the data cache commits and aborted when the data cache aborts. The data-cache transaction the producer fills is closed exactly once. |
| ProtocolDriver.ClosingOrder | src/main/BitrixCache.php:120-125 | `endDataCache` precedes `endTagCache`, and `abortDataCache` precedes `abortTagCache`. These are the last calls. |
| ProtocolDriver.ReplyShape | src/main/BitrixCache.php:104-127 | An exception propagates unchanged. Null gives `['result' => null]`. An array comes back as it is, and any other value v comes back as `['result' => v]`. |
| StoreModel.ReplayConcat | src/main/BitrixCache.php:96-132 | Replaying two call sequences in a row is replaying their concatenation. |
| StoreModel.ReplayTagOpen | src/main/BitrixCache.php:296-305 | The tagged-cache calls leave the data cache as it is. |
| StoreModel.ReplayRegistrations | src/main/BitrixCache.php:301-303 | The `registerTag` calls leave the data cache as it is. |
| StoreModel.PurgeRemovesEntry | src/main/BitrixCache.php:66-68 | The purge removes the entry at the configured (id, path, baseDir) and nothing else. |
| StoreModel.ReplayClosing | src/main/BitrixCache.php:104-127 | The calls after the producer store the wrapped value in the slot `startDataCache` opened, or leave the entries as they are. |
| StoreModel.ReplayExecute | src/main/BitrixCache.php:96-132 | Against a consistent store, `execute` stores a persisting value under the configured address on a miss. Otherwise it leaves the entries unchanged. |
| StoreModel.ServeEffect | src/main/BitrixCache.php:61-71 | After one `resultOf`, the committed array is stored under the configured address. Nothing else changes but the purge. |
| StoreModel.RepeatCallServesCachedValue | src/main/BitrixCache.php:61-71 | A second identical call after a successful one, without a forced refresh, does not run the producer. It leaves the store unchanged and returns what the first call returned. |
| StoreModel.FailedCallCachesNothing | src/main/BitrixCache.php:104-117 | A call whose producer throws or returns null stores nothing. The next identical call runs the producer again exactly when this one did. |
| StoreModel.ForcedRefreshBypassesStore | src/main/BitrixCache.php:66-101 | With a forced refresh the producer runs even when a value is stored. The stored value is gone before it runs. |
| BitrixCacheClass.BitrixCache.constructor | src/main/BitrixCache.php:20-45 | A new decorator has time 0, empty id and path, base directory "cache", no tags, no forced refresh and no callback. |
| BitrixCacheClass.BitrixCache.WithClearCache | src/main/BitrixCache.php:147-152 | Sets the forced-refresh flag and changes no other field. |
| BitrixCacheClass.BitrixCache.ClearTags | src/main/BitrixCache.php:157-160 | Empties the tag list and changes no other field. |
| BitrixCacheClass.BitrixCache.WithTag | src/main/BitrixCache.php:167-175 | Appends `trim(tag)` at the end of the list when it is not empty, and leaves the list unchanged otherwise. Every tag stays non-empty and trimmed, and no other field changes. |
| BitrixCacheClass.BitrixCache.WithIblockTag | src/main/BitrixCache.php:182-189 | Appends "iblock_id_" + n for n > 0 and leaves the list unchanged otherwise. The tag invariant holds, and no other field changes. |
| BitrixCacheClass.BitrixCache.WithTime | src/main/BitrixCache.php:204-209 | Sets the time and changes no other field. |
| BitrixCacheClass.BitrixCache.WithId | src/main/BitrixCache.php:224-229 | Stores the trimmed id and changes no other field. |
| BitrixCacheClass.BitrixCache.WithPath | src/main/BitrixCache.php:244-249 | Stores the trimmed path and changes no other field. |
| BitrixCacheClass.BitrixCache.WithBaseDir | src/main/BitrixCache.php:264-269 | Stores the base directory as given and changes no other field. |
| BitrixCacheClass.BitrixCache.SetDefaultParams | src/main/BitrixCache.php:76-90 | The new configuration is `Resolve` of the old one for the callback's call site. Only time, id and path may change. A blank id is replaced by the digest of the corrected identity, not of line 84's string (see "## Left out"). |
| BitrixCacheClass.BitrixCache.StartTagCache | src/main/BitrixCache.php:296-305 | With tags, the log grows by `startTagCache(path)` and then one `registerTag` per tag in list order, built by the loop. Without tags it does not grow. |
| BitrixCacheClass.BitrixCache.EndTagCache | src/main/BitrixCache.php:311-316 | Calls `endTagCache` exactly when there are tags. |
| BitrixCacheClass.BitrixCache.AbortCache | src/main/BitrixCache.php:324-330 | Calls `abortDataCache`, then `abortTagCache` when there are tags. |
| BitrixCacheClass.BitrixCache.Produce | src/main/BitrixCache.php:103-127 | Runs the producer, then commits the wrapped value and the scope, or aborts both. The reply is what `execute` returns or throws. |
| BitrixCacheClass.BitrixCache.Execute | src/main/BitrixCache.php:96-132 | The calls made and the reply are those of `ExecuteRun` for the current configuration, the store's answers and the producer's outcome. |
| BitrixCacheClass.BitrixCache.ResultOf | src/main/BitrixCache.php:61-71 | Stores the callback and resolves the defaults. The calls made and the reply are those of `ResultOfRun`. The tag invariant is kept. |

## Left out

- The Bitrix `Application`, `Data\Cache` and `TaggedCache` objects are not
  modelled (framework calls with file and storage I/O). Each call to them
  is an `Event` in the ghost `log`. `startDataCache`'s answer and
  `getVars`' result come in as parameters.
- `getCache` is not modelled: its lazy creation of the store handle has no
  observable behaviour beyond the calls already logged.
- `ReflectionFunction` and `md5` are left out. The call site is part of the
  `Producer` value and `md5` is a parameter. Collision resistance of MD5 is
  not modelled.
- KeyResolver.Resolve: the default id is the digest of the corrected call-site
  identity (`Identity`: start line, ':', end line, ':', file), not of the
  string line 84 builds (`LegacyIdentity`: file, start line and end line run
  together). So `SetDefaultParams` and `ResultOf` give distinct ids to the
  two call sites of `LegacyIdentityCollides`, where the code as written
  gives them one id (see "## Findings").
- BitrixCacheClass.BitrixCache.Produce: the producer cannot touch the
  decorator. In the code, `endTagCache` and `abortCache` re-read `tags`
  after the callback returns (lines 313 and 327). A closure that captured
  the decorator and called `withTag`, `withIblockTag` or `clearTags` could
  then close a scope that was never opened, or leave an opened scope
  unclosed. The pairing lemmas (`TagScopeClosedWithDataCache`,
  `ClosingCounts`, `ClosingOrder`) hold for a tag list that is unchanged
  while the producer runs.
- The `(int)` and `(bool)` casts in `withTime`, `getTime`, `withClearCache`
  and `withIblockTag` are not modelled. The model takes `int` and `bool`
  arguments, so loose PHP comparisons (`== 0`, `!= ''`) are exact comparisons.
- `catch (Exception)` does not catch a PHP `Error`. The model has a single
  "throws" outcome, which is always caught, aborted and rethrown. An engine
  error that leaves the transaction open is not modelled.
- Errors raised by the store or the tagged cache, and overlapping
  invocations, are not modelled.
- Expiry: the reference store in `StoreModel` ignores the validity time.
- PHP arrays are modelled as maps from string keys. Integer keys and key
  order are not represented. `Value` has no float or object variant; such a
  value is wrapped under "result" like any other scalar, so the protocol is
  the same for it.
- The setters return `$this` for chaining. The model's setters return
  nothing; chaining is a sequence of method calls.
- The getters (`getTime`, `getId`, `getPath`, `getBaseDir`, `isClearCache`,
  `hasTags`) are field reads written as functions, without contracts of
  their own.
- `execute` is split into `Execute` and `Produce`. `Produce` is the part
  after `startTagCache` (lines 103-127), kept apart so that each proof
  stays small.
- `startTagCache` registers the tags before the producer runs. When the
  producer throws, the scope is aborted, so no tag association persists
  (`TagsRegisteredInOrder`, `ClosingCounts`).

## Findings

| source | as written | input that shows it | evidently intended | confidence | as-written member | corrected member |
|---|---|---|---|---|---|---|
| src/main/BitrixCache.php:84 | The default id hashes file name, start line and end line concatenated with no separator. | Closures in "a.php" spanning lines 10–1112 and 101–112 both hash "a.php101112", so they share one cache id. | Distinct call sites get distinct hash inputs, for example with a separator between the parts. | not executed | KeyResolver.LegacyIdentityCollides | KeyResolver.IdentityInjective |
