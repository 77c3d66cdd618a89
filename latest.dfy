/**
 * `NextSessionService`: the latest session through the cache, under the
 * fixed key "latest". Like the session lookup, it caches the RAW API record
 * and reads the cache back as a list of domain sessions. Its `mapToDomain`
 * is the session lookup's, line for line, and is not repeated here.
 */
module Latest {
  import opened Wrappers
  import opened Domain
  import opened Cache
  import opened Fetch
  import Getsession

  /** `LatestResponse`: a session (nil when absent) and a warning. */
  datatype LatestResponse = LatestResponse(session: Option<Session>, warning: string)

  /** The cache key, the same for every call. */
  const CacheKey: string := "latest"

  /** The response constructor handed to `FirstCached`. */
  function Respond(session: Option<Session>, warning: string): LatestResponse {
    LatestResponse(session, warning)
  }

  /**
   * One call of `Next` against cache directory `files` read at `clock`,
   * with the client's answer `remote`.
   */
  function NextRun(files: map<string, StoredFile>, clock: Time, remote: Remote<ApiSession>, env: Env)
    : (run: Run<LatestResponse>)
    // a fresh hit answers from the cache alone
    ensures var l := Read(files, CacheKey, SessionsKind, clock);
      Fresh(l) ==> !run.called && run.write == None && run.reply == FirstCached(CachedSessions(l), "", Respond)
    // anything else calls the remote exactly once
    ensures !Fresh(Read(files, CacheKey, SessionsKind, clock)) ==> run.called
    // a warning means the session came from a stale entry after the remote failed
    ensures run.reply.Returned? && run.reply.response.warning != "" ==>
      var l := Read(files, CacheKey, SessionsKind, clock);
      && run.reply.response.warning == StaleWarning
      && remote.Failed? && l.found && l.isStale
      && run.reply == FirstCached(CachedSessions(l), StaleWarning, Respond)
      && run.write == None
    // remote failure with a stale entry falls back to it; with none, the error propagates
    ensures remote.Failed? && !Fresh(Read(files, CacheKey, SessionsKind, clock)) ==>
      var l := Read(files, CacheKey, SessionsKind, clock);
      && run.write == None
      && (l.found ==> run.reply == FirstCached(CachedSessions(l), StaleWarning, Respond))
      && (!l.found ==> run.reply == Returned(LatestResponse(None, ""), Some(RemoteFailure(remote.cause))))
    // an error reply never comes with a cache write
    ensures run.reply.Returned? && run.reply.err.Some? ==> run.write == None
    // a record whose dates do not parse is reported and not cached
    ensures !Fresh(Read(files, CacheKey, SessionsKind, clock)) && remote.Delivered? && remote.value.Some?
            && Getsession.MapToDomain(remote.value.value, env).Err? ==>
      run == Run(Returned(LatestResponse(None, ""), Some(Getsession.MapToDomain(remote.value.value, env).error)),
                 true, None)
    // the one write stores the raw record; the caller gets the mapped one
    ensures run.write.Some? <==>
      !Fresh(Read(files, CacheKey, SessionsKind, clock)) && remote.Delivered? && remote.value.Some?
      && Getsession.MapToDomain(remote.value.value, env).Ok?
    ensures run.write.Some? ==>
      && run.write.value == Write(CacheKey, RawSession(remote.value.value))
      && run.reply == Returned(LatestResponse(Some(Getsession.MapToDomain(remote.value.value, env).value), ""), None)
    // a nil result from the client is dereferenced
    ensures run.reply == Crashed(NilDereference) <==>
      !Fresh(Read(files, CacheKey, SessionsKind, clock)) && remote == Delivered(None)
  {
    var l := Read(files, CacheKey, SessionsKind, clock);
    var cachedSessions := CachedSessions(l);
    if Fresh(l) then
      Run(FirstCached(cachedSessions, "", Respond), false, None)
    else
      match remote
      case Failed(cause) =>
        if l.found then Run(FirstCached(cachedSessions, StaleWarning, Respond), true, None)
        else Run(Returned(LatestResponse(None, ""), Some(RemoteFailure(cause))), true, None)
      case Delivered(None) => Run(Crashed(NilDereference), true, None)
      case Delivered(Some(session)) =>
        match Getsession.MapToDomain(session, env)
        case Err(e) => Run(Returned(LatestResponse(None, ""), Some(e)), true, None)
        case Ok(mapped) =>
          Run(Returned(LatestResponse(Some(mapped), ""), None), true, Some(Write(CacheKey, RawSession(session))))
  }

  /**
   * The entry `Next` writes is a raw record and it reads back a session
   * list, so its own write is a miss: the following call always goes to
   * the remote and never serves the stale fallback from it.
   */
  lemma OwnWriteIsNeverServed(files: map<string, StoredFile>, clock: Time, later: Time,
                              remote: Remote<ApiSession>, env: Env, io: WriteOutcome,
                              remote2: Remote<ApiSession>, env2: Env)
    requires NextRun(files, clock, remote, env).write.Some?
    requires io != OpenFailed
    ensures var files2 := AfterRun(files, NextRun(files, clock, remote, env).write, clock, io);
      var next := NextRun(files2, later, remote2, env2);
      && !Read(files2, CacheKey, SessionsKind, later).found
      && next.called
      && (next.reply.Returned? ==> next.reply.response.warning == "")
  {
  }

  class NextSessionService {
    const cache: FileCache

    constructor (cache: FileCache)
      ensures this.cache == cache
    {
      this.cache := cache;
    }

    /** `NextSessionService.Next`, with the client's answer given as `remote`. */
    method Next(remote: Remote<ApiSession>, env: Env, io: WriteOutcome)
      returns (reply: Reply<LatestResponse>, called: bool)
      modifies cache
      ensures var run := NextRun(old(cache.files), old(cache.now), remote, env);
        && reply == run.reply
        && called == run.called
        && cache.files == AfterRun(old(cache.files), run.write, old(cache.now), io)
      ensures cache.now == old(cache.now)
    {
      var cacheKey := CacheKey;
      var found, isStale, data, _ := cache.Get(cacheKey, SessionsKind);
      var cachedSessions := CachedSessions(Lookup(found, isStale, data));

      if found && !isStale {
        return FirstCached(cachedSessions, "", Respond), false;
      }

      called := true;
      if remote.Failed? && found {
        return FirstCached(cachedSessions, StaleWarning, Respond), called;
      }
      if remote.Failed? {
        return Returned(LatestResponse(None, ""), Some(RemoteFailure(remote.cause))), called;
      }
      if remote.value.None? {
        return Crashed(NilDereference), called;
      }
      var session := remote.value.value;
      var mappedSession := Getsession.MapToDomain(session, env);
      if mappedSession.Err? {
        return Returned(LatestResponse(None, ""), Some(mappedSession.error)), called;
      }
      var _ := cache.Set(cacheKey, RawSession(session), Ttl, io);
      reply := Returned(LatestResponse(Some(mappedSession.value), ""), None);
    }
  }
}
