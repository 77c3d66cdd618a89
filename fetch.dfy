/**
 * The vocabulary shared by the three copies of the stale-fallback fetch
 * protocol (weekend, session lookup, next session): what the remote call
 * produced, how a service call ended, and the one cache write it may make.
 */
module Fetch {
  import opened Wrappers
  import opened Domain
  import opened Cache

  /**
   * What the OpenF1 client returned: an error, or a result that is nil
   * (`None`) when the API answered with an empty list.
   */
  datatype Remote<T> = Failed(cause: string) | Delivered(value: Option<T>)

  /** The runtime panics the services can hit. */
  datatype Panic =
    | NilDereference      // a nil result from the client is dereferenced
    | IndexOutOfRange     // `cachedSessions[0]` on an empty cached list

  /** How a service call ends: Go's `(response, error)` pair, or a panic. */
  datatype Reply<R> = Returned(response: R, err: Option<Error>) | Crashed(panic: Panic)

  /**
   * The reply built from `&cachedSessions[0]`, which panics on an empty
   * list; `respond` is the service's response constructor.
   */
  function FirstCached<R>(cached: seq<Session>, warning: string, respond: (Option<Session>, string) -> R)
    : (r: Reply<R>)
    ensures r.Crashed? <==> cached == []
    ensures r.Crashed? ==> r.panic == IndexOutOfRange
    ensures r.Returned? ==> r == Returned(respond(Some(cached[0]), warning), None)
  {
    if |cached| == 0 then Crashed(IndexOutOfRange)
    else Returned(respond(Some(cached[0]), warning), None)
  }

  /** A `cache.Set(key, payload, 24h)` call. */
  datatype Write = Write(key: string, payload: Payload)

  /** One service call: its reply, whether the remote was called, and its cache write. */
  datatype Run<R> = Run(reply: Reply<R>, called: bool, write: Option<Write>)

  /** The warning attached to data served from the cache after a remote failure. */
  const StaleWarning: string := "\U{26A0}\U{FE0F} API unavailable. Showing stale cached data."

  const Hour: int := 3_600_000_000_000

  /** Every service caches for `24*time.Hour`. */
  const Ttl: int := 24 * Hour

  /** A hit that the protocol serves without calling the remote. */
  predicate Fresh(l: Lookup) {
    l.found && !l.isStale
  }

  /** The `[]domain.Session` target as the services see it after `Get`. */
  function CachedSessions(l: Lookup): (r: seq<Session>)
    ensures l.data.Some? && l.data.value.DomainSessions? ==> r == l.data.value.sessions
  {
    if l.data.Some? && l.data.value.DomainSessions? then l.data.value.sessions else []
  }

  /** The directory after a run whose write (if any) ended with `io`. */
  function AfterRun(files: map<string, StoredFile>, write: Option<Write>, now: Time, io: WriteOutcome)
    : (r: map<string, StoredFile>)
    ensures write.None? ==> r == files
  {
    match write
    case None => files
    case Some(w) => Stored(files, w.key, w.payload, Ttl, now, io)
  }
}
