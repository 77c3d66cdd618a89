/**
 * `WeekendService`: every session of one race weekend through the cache.
 * Unlike the single-session lookups it skips records with bad dates,
 * caches the MAPPED sessions, and never caches an empty result.
 */
module Weekend {
  import opened Wrappers
  import opened Domain
  import opened Cache
  import opened Fetch
  import Getsession
  import Latest

  /** `WeekendResponse`: the sessions (nil when absent) and a warning. */
  datatype WeekendResponse = WeekendResponse(sessions: Option<seq<Session>>, warning: string)

  /**
   * What the skipping `mapToDomain` returns: each record converted as the
   * single-session lookup converts it, the ones whose dates do not parse
   * left out, the rest in input order.
   */
  function Mapped(api: seq<ApiSession>, env: Env): (r: seq<Session>)
    ensures |r| <= |api|
    decreases |api|
  {
    if api == [] then []
    else
      match Getsession.MapToDomain(api[|api| - 1], env)
      case Ok(s) => Mapped(api[..|api| - 1], env) + [s]
      case Err(_) => Mapped(api[..|api| - 1], env)
  }

  /**
   * Every mapped session is the conversion of some input record, every
   * record that converts is kept, and nothing is dropped exactly when every
   * record converts.
   */
  lemma {:induction false} MappedContents(api: seq<ApiSession>, env: Env)
    ensures forall s :: s in Mapped(api, env) ==> exists i :: 0 <= i < |api| && Getsession.MapToDomain(api[i], env) == Ok(s)
    ensures forall i :: 0 <= i < |api| && Getsession.MapToDomain(api[i], env).Ok? ==>
      Getsession.MapToDomain(api[i], env).value in Mapped(api, env)
    ensures |Mapped(api, env)| == |api| <==> forall i :: 0 <= i < |api| ==> Getsession.MapToDomain(api[i], env).Ok?
    decreases |api|
  {
    if api != [] {
      var init := api[..|api| - 1];
      MappedContents(init, env);
      assert forall i :: 0 <= i < |init| ==> init[i] == api[i];
    }
  }

  /** Mapping a concatenation maps each part: the output keeps the input's order. */
  lemma {:induction false} MappedAppend(a: seq<ApiSession>, b: seq<ApiSession>, env: Env)
    ensures Mapped(a + b, env) == Mapped(a, env) + Mapped(b, env)
    decreases |b|
  {
    if b == [] {
      assert a + b == a;
    } else {
      var init := b[..|b| - 1];
      assert (a + b)[..|a + b| - 1] == a + init;
      MappedAppend(a, init, env);
    }
  }

  /** On one record, the skipping map keeps exactly what the failing map accepts. */
  lemma MappedOne(x: ApiSession, env: Env)
    ensures Mapped([x], env) == match Getsession.MapToDomain(x, env)
                                case Ok(s) => [s]
                                case Err(_) => []
  {
  }

  /** One more record extends the mapping of a prefix by that record's conversion, if any. */
  lemma MappedStep(api: seq<ApiSession>, i: nat, env: Env)
    requires i < |api|
    ensures Mapped(api[..i + 1], env) == Mapped(api[..i], env) + match Getsession.MapToDomain(api[i], env)
                                                                 case Ok(s) => [s]
                                                                 case Err(_) => []
  {
    assert api[..i + 1][..i] == api[..i];
  }

  /** `mapToDomain`: the loop that appends each record whose dates parse. */
  method MapToDomain(apiSessions: seq<ApiSession>, env: Env) returns (sessions: seq<Session>)
    ensures sessions == Mapped(apiSessions, env)
  {
    sessions := [];
    for i := 0 to |apiSessions|
      invariant sessions == Mapped(apiSessions[..i], env)
    {
      MappedStep(apiSessions, i, env);
      var session := apiSessions[i];
      var dateStart := env.parseDate(session.dateStart);
      if dateStart.None? {
        continue;
      }
      var dateEnd := env.parseDate(session.dateEnd);
      if dateEnd.None? {
        continue;
      }
      var mappedSession := Session(session.sessionKey, session.sessionName, dateStart.value, dateEnd.value,
                                   session.location, session.countryName, session.circuitName,
                                   session.meetingKey, session.year, Unclassified);
      mappedSession := mappedSession.(state := env.stateAt(mappedSession, env.now));
      sessions := sessions + [mappedSession];
    }
    assert apiSessions[..|apiSessions|] == apiSessions;
  }

  /** The cache key: operation, country, then year, separated by colons. */
  function CacheKey(country: string, year: string): (r: string)
    ensures |r| == |"weekend:"| + |country| + 1 + |year|
    ensures r[..8] == "weekend:"
    ensures r[8..8 + |country|] == country && r[8 + |country|] == ':'
    ensures r[9 + |country|..] == year
  {
    "weekend:" + country + ":" + year
  }

  /** Queries whose country holds no colon never share a cache entry. */
  lemma CacheKeyInjective(c1: string, y1: string, c2: string, y2: string)
    requires ':' !in c1 && ':' !in c2
    ensures CacheKey(c1, y1) == CacheKey(c2, y2) ==> c1 == c2 && y1 == y2
  {
  }

  /** A country with a colon makes two different weekend queries share one entry. */
  lemma CacheKeyCollision()
    ensures CacheKey("a:b", "c") == CacheKey("a", "b:c")
  {
  }

  /**
   * The three services never address each other's entries: their keys
   * start with different characters.
   */
  lemma {:induction false} KeySpacesDisjoint(country: string, year: string, c2: string, n2: string, y2: string)
    ensures CacheKey(country, year) != Getsession.CacheKey(c2, n2, y2)
    ensures CacheKey(country, year) != Latest.CacheKey
    ensures Getsession.CacheKey(c2, n2, y2) != Latest.CacheKey
  {
    assert CacheKey(country, year)[0] == 'w';
    assert Getsession.CacheKey(c2, n2, y2)[0] == 'g';
    assert Latest.CacheKey[0] == 'l';
  }

  /** What `Get` reports for this query's key. */
  function CachedEntry(files: map<string, StoredFile>, clock: Time, country: string, year: string): Lookup {
    Read(files, CacheKey(country, year), SessionsKind, clock)
  }

  /**
   * One call of `Weekend` against cache directory `files` read at `clock`,
   * with the client's answer `remote`.
   */
  function WeekendRun(files: map<string, StoredFile>, clock: Time, country: string, year: string,
                      remote: Remote<seq<ApiSession>>, env: Env): (run: Run<WeekendResponse>)
    // a fresh hit returns the cached sessions and nothing else happens
    ensures var l := CachedEntry(files, clock, country, year);
      Fresh(l) ==> run == Run(Returned(WeekendResponse(Some(CachedSessions(l)), ""), None), false, None)
    // anything else calls the remote exactly once
    ensures !Fresh(CachedEntry(files, clock, country, year)) ==> run.called
    // a warning means stale cached sessions served after the remote failed
    ensures run.reply.Returned? && run.reply.response.warning != "" ==>
      var l := CachedEntry(files, clock, country, year);
      && run.reply == Returned(WeekendResponse(Some(CachedSessions(l)), StaleWarning), None)
      && remote.Failed? && l.found && l.isStale
      && run.write == None
    // remote failure: fall back to any cached entry, else propagate; never write
    ensures remote.Failed? && !Fresh(CachedEntry(files, clock, country, year)) ==>
      var l := CachedEntry(files, clock, country, year);
      && run.write == None
      && (l.found ==> run.reply == Returned(WeekendResponse(Some(CachedSessions(l)), StaleWarning), None))
      && (!l.found ==> run.reply == Returned(WeekendResponse(None, ""), Some(RemoteFailure(remote.cause))))
    // the weekend lookup never fails on bad records, it skips them
    ensures run.reply.Returned? && run.reply.err.Some? ==>
      remote.Failed? && run.reply.err == Some(RemoteFailure(remote.cause)) && run.write == None
    // nothing survives mapping: an empty answer, not an error, and nothing cached
    ensures !Fresh(CachedEntry(files, clock, country, year)) && remote.Delivered? && remote.value.Some?
            && Mapped(remote.value.value, env) == [] ==>
      run == Run(Returned(WeekendResponse(None, ""), None), true, None)
    // the one write stores the mapped, non-empty sessions, which are also what the caller gets
    ensures run.write.Some? <==>
      !Fresh(CachedEntry(files, clock, country, year)) && remote.Delivered? && remote.value.Some?
      && Mapped(remote.value.value, env) != []
    ensures run.write.Some? ==>
      && run.write.value == Write(CacheKey(country, year), DomainSessions(Mapped(remote.value.value, env)))
      && run.reply == Returned(WeekendResponse(Some(Mapped(remote.value.value, env)), ""), None)
    // a nil result from the client is dereferenced
    ensures run.reply.Crashed? <==> !Fresh(CachedEntry(files, clock, country, year)) && remote == Delivered(None)
  {
    var cacheKey := CacheKey(country, year);
    var l := Read(files, cacheKey, SessionsKind, clock);
    var cachedSessions := CachedSessions(l);
    if Fresh(l) then
      Run(Returned(WeekendResponse(Some(cachedSessions), ""), None), false, None)
    else
      match remote
      case Failed(cause) =>
        if l.found then Run(Returned(WeekendResponse(Some(cachedSessions), StaleWarning), None), true, None)
        else Run(Returned(WeekendResponse(None, ""), Some(RemoteFailure(cause))), true, None)
      case Delivered(None) => Run(Crashed(NilDereference), true, None)
      case Delivered(Some(apiSessions)) =>
        var sessions := Mapped(apiSessions, env);
        if |sessions| == 0 then Run(Returned(WeekendResponse(None, ""), None), true, None)
        else Run(Returned(WeekendResponse(Some(sessions), ""), None), true,
                 Some(Write(cacheKey, DomainSessions(sessions))))
  }

  /**
   * The weekend lookup reads back what it writes: after a call that cached
   * its sessions, a call for the same weekend within the 24-hour ttl is a
   * fresh hit that returns the very same reply without calling the remote,
   * whatever the remote would have said.
   */
  lemma RepeatWithinTtlIsServedFromCache(files: map<string, StoredFile>, clock: Time, later: Time,
                                         country: string, year: string,
                                         remote: Remote<seq<ApiSession>>, env: Env,
                                         remote2: Remote<seq<ApiSession>>, env2: Env)
    requires WeekendRun(files, clock, country, year, remote, env).write.Some?
    requires later <= clock + Ttl
    ensures var run := WeekendRun(files, clock, country, year, remote, env);
      var next := WeekendRun(AfterRun(files, run.write, clock, Written), later, country, year, remote2, env2);
      !next.called && next.write == None && next.reply == run.reply
  {
  }

  class WeekendService {
    const cache: FileCache

    constructor (cache: FileCache)
      ensures this.cache == cache
    {
      this.cache := cache;
    }

    /** `WeekendService.Weekend`, with the client's answer given as `remote`. */
    method Weekend(country: string, year: string, remote: Remote<seq<ApiSession>>, env: Env, io: WriteOutcome)
      returns (reply: Reply<WeekendResponse>, called: bool)
      modifies cache
      ensures var run := WeekendRun(old(cache.files), old(cache.now), country, year, remote, env);
        && reply == run.reply
        && called == run.called
        && cache.files == AfterRun(old(cache.files), run.write, old(cache.now), io)
      ensures cache.now == old(cache.now)
    {
      var cacheKey := CacheKey(country, year);
      var found, isStale, data, _ := cache.Get(cacheKey, SessionsKind);
      var cachedSessions := CachedSessions(Lookup(found, isStale, data));

      if found && !isStale {
        return Returned(WeekendResponse(Some(cachedSessions), ""), None), false;
      }

      called := true;
      if remote.Failed? && found {
        return Returned(WeekendResponse(Some(cachedSessions), StaleWarning), None), called;
      }
      if remote.Failed? {
        return Returned(WeekendResponse(None, ""), Some(RemoteFailure(remote.cause))), called;
      }
      if remote.value.None? {
        return Crashed(NilDereference), called;
      }
      var sessions := MapToDomain(remote.value.value, env);
      if |sessions| == 0 {
        return Returned(WeekendResponse(None, ""), None), called;
      }
      var _ := cache.Set(cacheKey, DomainSessions(sessions), Ttl, io);
      reply := Returned(WeekendResponse(Some(sessions), ""), None);
    }
  }
}
