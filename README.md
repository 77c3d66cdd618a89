# pitwall: the cache-backed session fetch layer, in Dafny

pitwall is a command-line client that reports Formula 1 session schedules
from the OpenF1 REST API. This project models its resilient core:

- `FileCache` (`internal/cache/cache.go`), one JSON file `<key>.json` per key,
  each holding `{CreatedAt, ExpiresAt, Data}`. `Get` reports `found` and
  `isStale` and never fails. `Set` overwrites the entry and reports only the
  write error.
- The stale-fallback fetch protocol. The source has three copies of it:
  `WeekendService.Weekend`, `GetSessionService.GetSession` and
  `NextSessionService.Next`. A fresh hit is served without a remote call.
  Otherwise the remote is called once. On remote failure the cached entry
  is served with a fixed warning, or the error is returned when nothing is
  cached. On success the result is mapped and written back with a 24-hour
  ttl.
- Both `mapToDomain` variants. The weekend one skips records whose dates do
  not parse. The session lookups' one fails on them.
- `ShouldRemind` (`internal/services/remind/remind.go`) and
  `createWeekendGroup` (`cmd/pitwall/main.go`).

Modelling choices:

- The cache directory is the map `FileCache.files`, from file name to
  content. The content is either a decodable entry or undecodable bytes.
  The clock is the field `FileCache.now`, in nanoseconds.
- The stored value is a `Payload` with one variant per Go type the program
  stores. A `Get` decodes it only into the same type. A JSON decode failure
  is therefore a miss, exactly as in `cache.go`.
- The OpenF1 client's answer is a parameter,
  `Remote<T> = Failed(cause) | Delivered(Option<T>)`. `None` is the
  `(nil, nil)` the client returns for an empty list. Each service method
  returns `called`, which says whether it used that answer.
- A service call ends in a `Reply`. That is either Go's `(response, error)`
  pair or `Crashed(panic)`. Two panics are reachable in the source:
  dereferencing the client's nil result, and `cachedSessions[0]` on an empty
  cached list. Both are modelled as crash outcomes, not as preconditions.
- Each service method is proved against a pure function of the old cache
  state (`WeekendRun`, `GetSessionRun`, `NextRun`). That function gives the
  reply, the remote call and the single cache write. Its contract states
  the protocol's truth table.
- `utils.ParseDate`, `Session.State` and the `time.Now()` reading used by
  `mapToDomain` are the fields of `Domain.Env`. The day key
  `DateStart.Format("Mon")` is the function parameter `dayOf`.
- How the write of `os.WriteFile` ends is the parameter `io`. `Written`
  stores the entry. `OpenFailed` leaves the old file untouched. `WriteFailed`
  leaves a truncated file that no longer decodes.

Where the code behaves differently from what it evidently intends, the
model follows the code:

- `GetSession` and `Next` cache the raw `*openf1.Session` but read the cache
  back into a `[]domain.Session`. That decode fails, so the entries they write
  are always misses. Against `FileCache` they therefore never serve a cache
  hit or a stale fallback from their own writes
  (`Getsession.OwnWriteIsNeverServed`, `Latest.OwnWriteIsNeverServed`).
  The tests show that the list is what these services mean to cache: the
  mock cache in `internal/services/getsession/getsession_test.go:123-125`
  holds a `[]domain.Session` under `"getsession:Bahrain:2024:Race"`, and the
  one in `internal/services/latest/latest_test.go:114` holds one under
  `"latest"`.
- `ExpiresAt > CreatedAt` is not an invariant: `Set` accepts a negative ttl.
- `"weekend:" + country + ":" + year` collides when the country holds a
  colon
  (`Weekend.CacheKeyCollision`). The keys are injective only for colon-free
  countries (and years, for the session lookup).
- A nil result from the client, for an empty answer from the API, makes all
  three services panic rather than report "not found".

## Model

| member | source | states |
|---|---|---|
| `Cache.FileCache.constructor` | internal/cache/cache.go:21-23 | a cache over a given directory content and clock |
| `Cache.FileNameInjective` | internal/cache/cache.go:26 | distinct keys address distinct `<key>.json` files |
| `Cache.Read` | internal/cache/cache.go:25-40 | a missing file and a corrupt (undecodable) file are misses, as is an entry whose data does not decode into the requested type; an entry that does decode is found with its data, stale exactly when the clock is past its `ExpiresAt`; stale implies found, and data is present exactly when found |
| `Cache.FileCache.Get` | internal/cache/cache.go:25-40 | reports exactly `Read` of the current directory and clock, and never an error |
| `Cache.Stored` | internal/cache/cache.go:42-51 | a completed write puts `{now, now+ttl, value}` under `<key>.json`; every other file is unchanged; a failed open changes nothing; a failed write leaves the file undecodable |
| `Cache.FileCache.Set` | internal/cache/cache.go:42-51 | the directory becomes `Stored(...)`, the clock is unchanged, and an error is reported exactly when the write did not complete |
| `Cache.ReadAfterStore` | internal/cache/cache_test.go:14-57 | after a completed `Set`, `Get` into the same type finds the same value, stale exactly when the clock is past `now+ttl` (so fresh at once for ttl >= 0 and stale at once for ttl < 0); into another type it is a miss |
| `Cache.StoreIsolated` | internal/cache/cache.go:42-51 | a `Set` under one key never changes what `Get` reports for another key |
| `Fetch.StaleWarning` | internal/services/getsession/getsession.go:47 | the one warning attached to stale data after a remote failure, the same text in weekend.go:51 and latest.go:47 |
| `Fetch.Ttl` | internal/services/getsession/getsession.go:60 | every service caches for `24*time.Hour`, 86 400 seconds in nanoseconds, as in weekend.go:65 and latest.go:60 |
| `Getsession.MapToDomain` | internal/services/getsession/getsession.go:66-93 | fails iff a date fails to parse, with the start date's error first; on success copies every other field unchanged and sets the state from the record at the mapping time (latest.go:66-93 is the same code) |
| `Getsession.CacheKeyInjective` | internal/services/getsession/getsession.go:32 | with colon-free country and year, equal keys mean equal country, session name and year |
| `Fetch.FirstCached` | internal/services/getsession/getsession.go:37-49 | `&cachedSessions[0]` panics (index out of range) exactly on an empty list, and otherwise the response carries its first session and the given warning; shared by the session lookup and by `Next` (latest.go:37-49) |
| `Getsession.CacheKey` | internal/services/getsession/getsession.go:32 | the key is `"getsession:"`, the country, `:`, the year, `:`, then the session name, each at its stated position |
| `Getsession.GetSessionRun` | internal/services/getsession/getsession.go:31-64 | fresh hit: first cached session, no remote call, no write; otherwise exactly one remote call; remote error: first cached session with the fixed warning when found, else the error; a warning only ever comes from a stale entry after a remote error; an error never comes with a write; a mapping error is returned and not cached; the only write stores the raw record under the key and then the mapped one is returned; a nil client result panics |
| `Getsession.OwnWriteIsNeverServed` | internal/services/getsession/getsession.go:31-64 | after a call that wrote the cache, the next call for the same query gets a miss, calls the remote and carries no warning |
| `Getsession.GetSessionService.constructor` | internal/services/getsession/getsession.go:27-29 | the service keeps the cache it is given |
| `Getsession.GetSessionService.GetSession` | internal/services/getsession/getsession.go:31-64 | returns the reply and remote call of `GetSessionRun` on the old cache; the directory changes only by that run's write; the clock is unchanged |
| `Latest.CacheKey` | internal/services/latest/latest.go:32 | every call of `Next` uses the one key `"latest"` |
| `Latest.NextRun` | internal/services/latest/latest.go:31-64 | the same truth table as `GetSessionRun`, under the constant key `"latest"` |
| `Latest.OwnWriteIsNeverServed` | internal/services/latest/latest.go:31-64 | after a call that wrote the cache, the next call gets a miss, calls the remote and carries no warning |
| `Latest.NextSessionService.constructor` | internal/services/latest/latest.go:27-29 | the service keeps the cache it is given |
| `Latest.NextSessionService.Next` | internal/services/latest/latest.go:31-64 | returns the reply and remote call of `NextRun` on the old cache; the directory changes only by that run's write |
| `Weekend.Mapped` | internal/services/weekend/weekend.go:69-104 | the skipping map is never longer than its input |
| `Weekend.MappedContents` | internal/services/weekend/weekend.go:72-101 | every mapped session is the conversion of some input record; every record that converts is kept; nothing is dropped iff every record converts |
| `Weekend.MappedAppend` | internal/services/weekend/weekend.go:72-101 | mapping a concatenation is the concatenation of the mappings, so the kept records stay in input order |
| `Weekend.MappedOne` | internal/services/weekend/weekend.go:74-100 | on a single record the skipping map keeps exactly what the failing `mapToDomain` of the session lookup accepts |
| `Weekend.MapToDomain` | internal/services/weekend/weekend.go:69-104 | the loop with its two `continue`s returns `Mapped` of its input |
| `Weekend.CacheKey` | internal/services/weekend/weekend.go:36 | the key is `"weekend:"`, the country, `:`, then the year, each at its stated position |
| `Weekend.CacheKeyInjective` | internal/services/weekend/weekend.go:36 | with colon-free countries, equal keys mean equal country and year |
| `Weekend.CacheKeyCollision` | internal/services/weekend/weekend.go:36 | country `"a:b"` with year `"c"` and country `"a"` with year `"b:c"` share one key |
| `Weekend.KeySpacesDisjoint` | internal/services/weekend/weekend.go:36 | weekend, session-lookup and `"latest"` keys never coincide |
| `Weekend.WeekendRun` | internal/services/weekend/weekend.go:35-67 | fresh hit: the cached sessions, no remote call, no write; otherwise exactly one remote call; remote error: the (then necessarily stale) cached sessions with the fixed warning when found, else the error and no write; the only error is the remote's; bad records are skipped; an empty mapping gives an empty reply without error or write; the only write stores the mapped non-empty sessions, which are also returned; a nil client result panics |
| `Weekend.RepeatWithinTtlIsServedFromCache` | internal/services/weekend/weekend.go:35-67 | after a call that cached its sessions, a call within 24 hours is a fresh hit giving the same reply with no remote call and no write |
| `Weekend.WeekendService.constructor` | internal/services/weekend/weekend.go:28-33 | the service keeps the cache it is given |
| `Weekend.WeekendService.Weekend` | internal/services/weekend/weekend.go:35-67 | returns the reply and remote call of `WeekendRun` on the old cache; the directory changes only by that run's write |
| `Remind.ShouldRemind` | internal/services/remind/remind.go:8-15 | the returned duration is always `start - now`; the trigger fires iff `0 < start - now <= threshold` minutes |
| `Remind.NeverForPastStartOrEmptyWindow` | internal/services/remind/remind.go:10 | a start at or before now, or a threshold <= 0, never triggers |
| `Remind.WiderWindowStillFires` | internal/services/remind/remind.go:10 | a reminder that fires for a threshold also fires for any larger one |
| `Remind.TestTable` | internal/services/remind/remind_test.go:17-36 | with a 30-minute threshold, 29 and exactly 30 minutes ahead trigger; 31 minutes ahead and 5 minutes past do not |
| `Pitwall.CreateWeekendGroup` | cmd/pitwall/main.go:212-221 | the groups' keys are exactly the day keys of the input, and each group is that day's sessions in input order |
| `Pitwall.OnDayMembers` | cmd/pitwall/main.go:215-218 | a session is in a day's group iff it is an input session with that day key |
| `Pitwall.OnDayAppend` | cmd/pitwall/main.go:215-218 | grouping a concatenation concatenates the groups, so each group keeps input order |
| `Pitwall.EachSessionInItsOwnGroup` | cmd/pitwall/main.go:215-218 | every input session is in the group named by its day key |
| `Pitwall.GroupsHoldOnlyTheirDay` | cmd/pitwall/main.go:212-221 | every session in a group is an input session of that group's day, so a session is in no other group; an empty input gives an empty map |
| `Pitwall.GroupSizesSumToInput` | cmd/pitwall/main.go:215-218 | over the group keys listed once each, the group sizes add up to the input length |

## Left out

- `FileCache.Clear` and `FileCache.Info`: the tests and the command-line program call them, but `cache.go` does not define them.
- The OpenF1 HTTP client (`internal/openf1`): network I/O and JSON decoding. Only its observable answer is kept: an error, nil for an empty list, or the record(s).
- `utils.ParseDate` (RFC 3339 parsing, section 5.6 of RFC 3339) and `Session.State`: opaque functions in `Domain.Env`. Neither is re-implemented.
- `Cache.FileCache.Set`: Go reads `time.Now()` twice, for `CreatedAt` and for `ExpiresAt`. The model uses one clock reading for both.
- `Cache.FileCache.Get`: the decode is modelled by payload variant. Go's `null` payload from a nil slice, which decodes into any pointer type, is not modelled. No service stores one.
- Time zones: instants are plain nanosecond counts. `Format("Mon")` depends on a time's location, which is folded into the opaque `dayOf`.
- The cache directory path, `MkdirAll` and file permissions. Keys containing path separators would also be cleaned or nested by `filepath.Join`; the model uses `<key>.json` as the file name as is.
- `Remind.ShouldRemind`: does not model `time.Duration`'s 64-bit range, the overflow of `threshold * time.Minute`, or the saturation of `start.Sub(now)`. Integers are unbounded.
- The `context` deadline of the command-line program: a timeout is just one more `Failed` remote answer.
- `internal/services/get_session/get_session.go`: a stale copy that does not compile.
- `main` itself: flag parsing, printing and exit codes.
