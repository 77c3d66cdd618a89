/**
 * `GetSessionService`: look up one session by country, session name and
 * year through the cache. It caches the RAW API record but reads the cache
 * back as a list of domain sessions.
 */
module Getsession {
  import opened Wrappers
  import opened Domain
  import opened Cache
  import opened Fetch

  /** `GetSessionResponse`: a session (nil when absent) and a warning. */
  datatype GetSessionResponse = GetSessionResponse(session: Option<Session>, warning: string)

  /**
   * `mapToDomain`: parse both dates, fail on the first that does not parse,
   * otherwise copy the other fields unchanged and classify the session at
   * the mapping time.
   */
  function MapToDomain(api: ApiSession, env: Env): (r: Result<Session, Error>)
    ensures r.Ok? <==> env.parseDate(api.dateStart).Some? && env.parseDate(api.dateEnd).Some?
    ensures r.Err? ==> r.error == BadDate(if env.parseDate(api.dateStart).None? then api.dateStart else api.dateEnd)
    ensures r.Ok? ==>
      && r.value.dateStart == env.parseDate(api.dateStart).value
      && r.value.dateEnd == env.parseDate(api.dateEnd).value
      && r.value.sessionKey == api.sessionKey
      && r.value.sessionName == api.sessionName
      && r.value.location == api.location
      && r.value.countryName == api.countryName
      && r.value.circuitName == api.circuitName
      && r.value.meetingKey == api.meetingKey
      && r.value.year == api.year
      && r.value.state == env.stateAt(r.value.(state := Unclassified), env.now)
  {
    match env.parseDate(api.dateStart)
    case None => Err(BadDate(api.dateStart))
    case Some(dateStart) =>
      match env.parseDate(api.dateEnd)
      case None => Err(BadDate(api.dateEnd))
      case Some(dateEnd) =>
        var mapped := Session(api.sessionKey, api.sessionName, dateStart, dateEnd, api.location,
                              api.countryName, api.circuitName, api.meetingKey, api.year, Unclassified);
        Ok(mapped.(state := env.stateAt(mapped, env.now)))
  }

  /** The cache key: operation, country, year, then session name, separated by colons. */
  function CacheKey(country: string, sessionName: string, year: string): (r: string)
    ensures |r| == |"getsession:"| + |country| + 1 + |year| + 1 + |sessionName|
    ensures r[..11] == "getsession:"
    ensures r[11..11 + |country|] == country && r[11 + |country|] == ':'
    ensures r[12 + |country|..12 + |country| + |year|] == year && r[12 + |country| + |year|] == ':'
    ensures r[13 + |country| + |year|..] == sessionName
  {
    "getsession:" + country + ":" + year + ":" + sessionName
  }

  /** Queries whose country and year hold no colon never share a cache entry. */
  lemma CacheKeyInjective(c1: string, n1: string, y1: string, c2: string, n2: string, y2: string)
    requires ':' !in c1 && ':' !in y1 && ':' !in c2 && ':' !in y2
    ensures CacheKey(c1, n1, y1) == CacheKey(c2, n2, y2) ==> c1 == c2 && n1 == n2 && y1 == y2
  {
  }

  /** The response constructor handed to `FirstCached`. */
  function Respond(session: Option<Session>, warning: string): GetSessionResponse {
    GetSessionResponse(session, warning)
  }

  /** What `Get` reports for this query's key. */
  function CachedEntry(files: map<string, StoredFile>, clock: Time, country: string, sessionName: string, year: string)
    : Lookup
  {
    Read(files, CacheKey(country, sessionName, year), SessionsKind, clock)
  }

  /**
   * One call of `GetSession` against cache directory `files` read at
   * `clock`, with the client's answer `remote`.
   */
  function GetSessionRun(files: map<string, StoredFile>, clock: Time, country: string, sessionName: string,
                         year: string, remote: Remote<ApiSession>, env: Env): (run: Run<GetSessionResponse>)
    // a fresh hit answers from the cache alone
    ensures var l := CachedEntry(files, clock, country, sessionName, year);
      Fresh(l) ==> !run.called && run.write == None && run.reply == FirstCached(CachedSessions(l), "", Respond)
    // anything else calls the remote exactly once
    ensures !Fresh(CachedEntry(files, clock, country, sessionName, year)) ==> run.called
    // a warning is only attached to a session read from a stale entry after the remote failed
    ensures run.reply.Returned? && run.reply.response.warning != "" ==>
      var l := CachedEntry(files, clock, country, sessionName, year);
      && run.reply.response.warning == StaleWarning
      && remote.Failed? && l.found && l.isStale
      && run.reply == FirstCached(CachedSessions(l), StaleWarning, Respond)
      && run.write == None
    // remote failure with a stale entry falls back to it; with none, the error propagates
    ensures remote.Failed? && !Fresh(CachedEntry(files, clock, country, sessionName, year)) ==>
      var l := CachedEntry(files, clock, country, sessionName, year);
      && run.write == None
      && (l.found ==> run.reply == FirstCached(CachedSessions(l), StaleWarning, Respond))
      && (!l.found ==> run.reply == Returned(GetSessionResponse(None, ""), Some(RemoteFailure(remote.cause))))
    // an error reply never comes with a cache write
    ensures run.reply.Returned? && run.reply.err.Some? ==> run.write == None
    // a record that fails to map is reported and not cached
    ensures !Fresh(CachedEntry(files, clock, country, sessionName, year)) && remote.Delivered? && remote.value.Some?
            && MapToDomain(remote.value.value, env).Err? ==>
      run == Run(Returned(GetSessionResponse(None, ""), Some(MapToDomain(remote.value.value, env).error)), true, None)
    // the one write stores the raw record; the caller gets the mapped one
    ensures run.write.Some? <==>
      !Fresh(CachedEntry(files, clock, country, sessionName, year)) && remote.Delivered? && remote.value.Some?
      && MapToDomain(remote.value.value, env).Ok?
    ensures run.write.Some? ==>
      && run.write.value == Write(CacheKey(country, sessionName, year), RawSession(remote.value.value))
      && run.reply == Returned(GetSessionResponse(Some(MapToDomain(remote.value.value, env).value), ""), None)
    // a nil result from the client is dereferenced
    ensures run.reply == Crashed(NilDereference) <==>
      !Fresh(CachedEntry(files, clock, country, sessionName, year)) && remote == Delivered(None)
  {
    var key := CacheKey(country, sessionName, year);
    var l := Read(files, key, SessionsKind, clock);
    var cachedSessions := CachedSessions(l);
    if Fresh(l) then
      Run(FirstCached(cachedSessions, "", Respond), false, None)
    else
      match remote
      case Failed(cause) =>
        if l.found then Run(FirstCached(cachedSessions, StaleWarning, Respond), true, None)
        else Run(Returned(GetSessionResponse(None, ""), Some(RemoteFailure(cause))), true, None)
      case Delivered(None) => Run(Crashed(NilDereference), true, None)
      case Delivered(Some(session)) =>
        match MapToDomain(session, env)
        case Err(e) => Run(Returned(GetSessionResponse(None, ""), Some(e)), true, None)
        case Ok(mapped) =>
          Run(Returned(GetSessionResponse(Some(mapped), ""), None), true, Some(Write(key, RawSession(session))))
  }

  /**
   * The service caches a raw record but reads back a session list, so an
   * entry it wrote itself is a miss: the next call always goes to the remote
   * and never takes the stale fallback on that entry.
   */
  lemma OwnWriteIsNeverServed(files: map<string, StoredFile>, clock: Time, later: Time,
                              country: string, sessionName: string, year: string,
                              remote: Remote<ApiSession>, env: Env, io: WriteOutcome,
                              remote2: Remote<ApiSession>, env2: Env)
    requires GetSessionRun(files, clock, country, sessionName, year, remote, env).write.Some?
    requires io != OpenFailed
    ensures var files2 := AfterRun(files, GetSessionRun(files, clock, country, sessionName, year, remote, env).write, clock, io);
      var next := GetSessionRun(files2, later, country, sessionName, year, remote2, env2);
      && !CachedEntry(files2, later, country, sessionName, year).found
      && next.called
      && (next.reply.Returned? ==> next.reply.response.warning == "")
  {
  }

  class GetSessionService {
    const cache: FileCache

    constructor (cache: FileCache)
      ensures this.cache == cache
    {
      this.cache := cache;
    }

    /** `GetSessionService.GetSession`, with the client's answer given as `remote`. */
    method GetSession(country: string, sessionName: string, year: string, remote: Remote<ApiSession>, env: Env,
                      io: WriteOutcome) returns (reply: Reply<GetSessionResponse>, called: bool)
      modifies cache
      ensures var run := GetSessionRun(old(cache.files), old(cache.now), country, sessionName, year, remote, env);
        && reply == run.reply
        && called == run.called
        && cache.files == AfterRun(old(cache.files), run.write, old(cache.now), io)
      ensures cache.now == old(cache.now)
    {
      var cacheKey := CacheKey(country, sessionName, year);
      var found, isStale, data, _ := cache.Get(cacheKey, SessionsKind);
      var cachedSessions := CachedSessions(Lookup(found, isStale, data));

      if found && !isStale {
        return FirstCached(cachedSessions, "", Respond), false;
      }

      called := true;
      if remote.Failed? && found {
        return FirstCached(cachedSessions, StaleWarning, Respond), called;
      }
      if remote.Failed? {
        return Returned(GetSessionResponse(None, ""), Some(RemoteFailure(remote.cause))), called;
      }
      if remote.value.None? {
        return Crashed(NilDereference), called;
      }
      var session := remote.value.value;
      var mappedSession := MapToDomain(session, env);
      if mappedSession.Err? {
        return Returned(GetSessionResponse(None, ""), Some(mappedSession.error)), called;
      }
      var _ := cache.Set(cacheKey, RawSession(session), Ttl, io);
      reply := Returned(GetSessionResponse(Some(mappedSession.value), ""), None);
    }
  }
}
