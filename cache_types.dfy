/** The values the cache decorator passes around: the producer's result,
    its configuration, and the calls it makes to the data cache, the tagged
    cache and the producer, recorded as events. */
module CacheTypes {

  datatype Option<T> = None | Some(value: T)

  /** A PHP value as far as the decorator looks at it: null, a scalar, or an
      array (keyed by strings). */
  datatype Value =
    | Null
    | Bool(b: bool)
    | Int(i: int)
    | Str(s: string)
    | Arr(entries: map<string, Value>)

  /** What `getVars` returns and `endDataCache` stores. */
  type Vars = map<string, Value>

  /** How one run of the producer ends: it throws an exception, or it
      returns a value (possibly null). */
  datatype Outcome = Threw(exception: string) | Returned(value: Value)

  /** Where a closure is defined, as reflection reports it. */
  datatype CallSite = CallSite(file: string, startLine: nat, endLine: nat)

  /** The callback handed to `resultOf`: its definition site and what
      calling it does. */
  datatype Producer = Producer(site: CallSite, outcome: Outcome)

  /** How `resultOf` ends for its caller: an array is returned, or the
      producer's exception propagates. */
  datatype Reply = Ok(vars: Vars) | Raised(exception: string)

  /** The configuration fields of the decorator. */
  datatype Config = Config(
    time: int,
    id: string,
    path: string,
    baseDir: string,
    tags: seq<string>,
    clearCache: bool)

  /** One call made to a collaborator. `Invoke` is the call of the producer;
      the others are the data cache's `clean`, `startDataCache`,
      `endDataCache`, `abortDataCache`, `getVars` and the tagged cache's
      `startTagCache`, `registerTag`, `endTagCache`, `abortTagCache`. */
  datatype Event =
    | Clean(cleanId: string, cleanPath: string, cleanBaseDir: string)
    | Start(time: int, id: string, path: string, baseDir: string)
    | Invoke
    | End(vars: Vars)
    | AbortData
    | GetVars
    | TagStart(tagPath: string)
    | Register(tag: string)
    | TagEnd
    | TagAbort

  /** The calls one invocation makes, in order, and how it ends. */
  datatype Run = Run(events: seq<Event>, reply: Reply)
}
