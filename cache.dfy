/**
 * `FileCache`: one JSON file per key in a directory, each holding a
 * `CacheEntry {CreatedAt, ExpiresAt, Data}`. The directory is the map
 * `files` from file name to content; the wall clock is the field `now`.
 */
module Cache {
  import opened Wrappers
  import opened Domain

  /**
   * The Go value marshalled into `Data`, one variant per type the program
   * stores: a raw `*openf1.Session`, a `*[]domain.Session`, or a plain
   * string (what the cache's own tests store).
   */
  datatype Payload =
    | RawSession(raw: ApiSession)
    | DomainSessions(sessions: seq<Session>)
    | Text(text: string)
  {
    /** The Go type this payload decodes back into. */
    function Kind(): Kind {
      match this
      case RawSession(_) => RawSessionKind
      case DomainSessions(_) => SessionsKind
      case Text(_) => TextKind
    }
  }

  /** The type of the `target` a caller of `Get` decodes into. */
  datatype Kind = RawSessionKind | SessionsKind | TextKind

  datatype CacheEntry = CacheEntry(createdAt: Time, expiresAt: Time, data: Payload)

  /** A file in the cache directory: a well-formed entry, or bytes that do not decode. */
  datatype StoredFile = Decodable(entry: CacheEntry) | Undecodable

  /**
   * How `os.WriteFile` ended: it wrote the file; it could not open it (the
   * old file, if any, is untouched); or it truncated the file and then failed
   * part-way, leaving bytes that no longer decode.
   */
  datatype WriteOutcome = Written | OpenFailed | WriteFailed

  datatype CacheError = WriteError

  /** What `Get` reports: `found`, `isStale`, and the decoded target when found. */
  datatype Lookup = Lookup(found: bool, isStale: bool, data: Option<Payload>)

  /** Every key lives in the file `<key>.json`. */
  function FileName(key: string): string {
    key + ".json"
  }

  /** Distinct keys address distinct files. */
  lemma {:induction false} FileNameInjective(a: string, b: string)
    ensures FileName(a) == FileName(b) ==> a == b
  {
    if FileName(a) == FileName(b) {
      assert |a| == |b|;
      assert a == FileName(a)[..|a|];
      assert b == FileName(b)[..|b|];
    }
  }

  /**
   * The result of `Get(key, target)` on directory `files` at time `now`.
   * A missing file, an undecodable file, and an entry whose data does not
   * decode into `target` are all a miss; staleness is `now` strictly after
   * `ExpiresAt`.
   */
  function Read(files: map<string, StoredFile>, key: string, target: Kind, now: Time): (r: Lookup)
    ensures r.isStale ==> r.found
    ensures r.data.Some? <==> r.found
    ensures r.found ==> r.data.value.Kind() == target
    ensures FileName(key) !in files ==> r == Lookup(false, false, None)
    ensures FileName(key) in files && files[FileName(key)].Undecodable? ==> r == Lookup(false, false, None)
    ensures FileName(key) in files && files[FileName(key)].Decodable? && files[FileName(key)].entry.data.Kind() != target
      ==> r == Lookup(false, false, None)
    ensures FileName(key) in files && files[FileName(key)].Decodable? && files[FileName(key)].entry.data.Kind() == target
      ==> r == Lookup(true, now > files[FileName(key)].entry.expiresAt, Some(files[FileName(key)].entry.data))
  {
    var name := FileName(key);
    if name !in files || files[name].Undecodable? then
      Lookup(false, false, None)
    else if files[name].entry.data.Kind() != target then
      Lookup(false, false, None)
    else
      Lookup(true, now > files[name].entry.expiresAt, Some(files[name].entry.data))
  }

  /**
   * The directory after `Set(key, value, ttl)` at time `now` whose write
   * ended with `io`. Only the file of `key` can change.
   */
  function Stored(files: map<string, StoredFile>, key: string, value: Payload, ttl: int, now: Time, io: WriteOutcome)
    : (r: map<string, StoredFile>)
    ensures forall name :: name in files && name != FileName(key) ==> name in r && r[name] == files[name]
    ensures forall name :: name in r ==> name in files || name == FileName(key)
    ensures io == Written ==> FileName(key) in r && r[FileName(key)] == Decodable(CacheEntry(now, now + ttl, value))
    ensures io == OpenFailed ==> r == files
    ensures io == WriteFailed ==> FileName(key) in r && r[FileName(key)] == Undecodable
  {
    match io
    case Written => files[FileName(key) := Decodable(CacheEntry(now, now + ttl, value))]
    case OpenFailed => files
    case WriteFailed => files[FileName(key) := Undecodable]
  }

  /**
   * A completed `Set` is read back by `Get` into the same kind at any later
   * reading of the clock: found, with the same value, stale exactly when
   * the clock is past `now + ttl`; into any other kind it is a miss.
   */
  lemma ReadAfterStore(files: map<string, StoredFile>, key: string, value: Payload, ttl: int, now: Time,
                       target: Kind, later: Time)
    ensures var r := Read(Stored(files, key, value, ttl, now, Written), key, target, later);
      && (target == value.Kind() ==> r == Lookup(true, later > now + ttl, Some(value)))
      && (target != value.Kind() ==> r == Lookup(false, false, None))
  {
  }

  /** A `Set` under one key never changes what `Get` reports for another key. */
  lemma {:induction false} StoreIsolated(files: map<string, StoredFile>, key: string, value: Payload, ttl: int,
                                         now: Time, io: WriteOutcome, other: string, target: Kind, later: Time)
    requires other != key
    ensures Read(Stored(files, key, value, ttl, now, io), other, target, later) == Read(files, other, target, later)
  {
    FileNameInjective(key, other);
  }

  class FileCache {
    /** The cache directory: file name to file content. */
    var files: map<string, StoredFile>
    /** The wall clock that `time.Now()` reads. */
    var now: Time

    constructor (files: map<string, StoredFile>, now: Time)
      ensures this.files == files && this.now == now
    {
      this.files := files;
      this.now := now;
    }

    /** `FileCache.Get`: never reports an error; a read or decode failure is a miss. */
    method Get(key: string, target: Kind) returns (found: bool, isStale: bool, data: Option<Payload>, err: Option<CacheError>)
      ensures Lookup(found, isStale, data) == Read(files, key, target, now)
      ensures err == None
    {
      err := None;
      var path := FileName(key);
      if path !in files || files[path].Undecodable? {
        return false, false, None, None;
      }
      var entry := files[path].entry;
      if entry.data.Kind() != target {
        return false, false, None, None;
      }
      isStale := now > entry.expiresAt;
      found, data := true, Some(entry.data);
    }

    /**
     * `FileCache.Set`: writes `{now, now + ttl, value}` to `<key>.json`,
     * replacing any earlier entry. Only the write's failure is reported.
     */
    method Set(key: string, value: Payload, ttl: int, io: WriteOutcome) returns (err: Option<CacheError>)
      modifies this
      ensures files == Stored(old(files), key, value, ttl, old(now), io)
      ensures now == old(now)
      ensures err.Some? <==> io != Written
    {
      var entry := CacheEntry(now, now + ttl, value);
      match io {
        case Written =>
          files := files[FileName(key) := Decodable(entry)];
          err := None;
        case OpenFailed =>
          err := Some(WriteError);
        case WriteFailed =>
          files := files[FileName(key) := Undecodable];
          err := Some(WriteError);
      }
    }
  }
}
