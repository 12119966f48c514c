/** API key authentication through a cache of facts, against the database alone. */
module ApiKeyCache {
  import opened Domain

  const ACTIVE_TTL: int := 300 * SECOND
  const REVOKED_TTL: int := 30 * 24 * 3600 * SECOND
  const NOT_FOUND_TTL: int := 60 * SECOND

  datatype ApiKey = ApiKey(id: nat, projectId: nat, prefix: string, revokedAt: Option<int>, expiresAt: Option<int>)

  /** What the cache knows about a key hash: never a verdict. */
  datatype Entry =
    | NotFound
    | Found(id: nat, projectId: nat, prefix: string, revokedAt: Option<int>, expiresAt: Option<int>)

  /** An entry with the instant from which it is gone. */
  datatype Cached = Cached(entry: Entry, deadline: int)

  datatype Principal = Principal(keyId: nat, projectId: nat, prefix: string)

  datatype AuthError = Malformed | Unknown | Revoked | Expired

  type Answer = Result<Principal, AuthError>

  /** Stored keys by the hash of their secret. */
  type Keys = map<string, ApiKey>

  function FactsOf(keys: Keys, hash: string): Entry {
    if hash !in keys then NotFound else
    Found(keys[hash].id, keys[hash].projectId, keys[hash].prefix, keys[hash].revokedAt, keys[hash].expiresAt)
  }

  function Evaluate(entry: Entry, now: int): Answer {
    match entry
    case NotFound => Err(Unknown)
    case Found(id, projectId, prefix, revokedAt, expiresAt) =>
      if revokedAt.Some? then Err(Revoked)
      else if expiresAt.Some? && now >= expiresAt.value then Err(Expired)
      else Ok(Principal(id, projectId, prefix))
  }

  predicate UrlSafe(c: char) {
    'A' <= c <= 'Z' || 'a' <= c <= 'z' || '0' <= c <= '9' || c == '_' || c == '-'
  }

  predicate WellShaped(raw: string) {
    && |raw| >= 3 && raw[..3] == "tb_"
    && 32 <= |raw| - 3 <= 128
    && forall i :: 3 <= i < |raw| ==> UrlSafe(raw[i])
  }

  predicate LetterDigitOrDash(c: char) {
    'a' <= c <= 'z' || 'A' <= c <= 'Z' || '0' <= c <= '9' || c in {'-', '_'}
  }

  /** A key is "tb_" and 32 to 128 letters, digits, dashes and underscores. */
  lemma ShapeOfKeys(raw: string)
    ensures WellShaped(raw) <==>
              exists secret: string ::
                raw == "tb_" + secret && 32 <= |secret| <= 128 && forall c :: c in secret ==> LetterDigitOrDash(c)
  {
    if WellShaped(raw) {
      var secret := raw[3..];
      assert raw == raw[..3] + secret;
      forall c | c in secret ensures LetterDigitOrDash(c) {
        var i :| 0 <= i < |secret| && secret[i] == c;
        assert raw[i + 3] == c && UrlSafe(raw[i + 3]);
      }
    }
    if secret: string :| raw == "tb_" + secret && 32 <= |secret| <= 128 && forall c :: c in secret ==>
        LetterDigitOrDash(c)
    {
      assert raw[..3] == "tb_";
      forall i | 3 <= i < |raw| ensures UrlSafe(raw[i]) {
        assert raw[i] == secret[i - 3] && secret[i - 3] in secret;
      }
    }
  }

  /** How long the facts may be kept. */
  function Ttl(entry: Entry, now: int): int {
    match entry
    case NotFound => NOT_FOUND_TTL
    case Found(_, _, _, revokedAt, expiresAt) =>
      if revokedAt.Some? then REVOKED_TTL
      else if expiresAt.None? then ACTIVE_TTL
      else if expiresAt.value - now <= 0 then REVOKED_TTL
      else if expiresAt.value - now < ACTIVE_TTL then expiresAt.value - now else ACTIVE_TTL
  }

  /** Stored in whole seconds, and at least one. */
  function Deadline(entry: Entry, now: int): int {
    var seconds := Ttl(entry, now) / SECOND;
    now + (if seconds < 1 then 1 else seconds) * SECOND
  }

  function Usable(entry: Entry, now: int): bool {
    Evaluate(entry, now).Ok?
  }

  /** A usable entry is gone after five minutes at most.  It is gone by the time the key
      expires exactly if the key has at least a second left: the whole-second minimum makes
      shorter-lived ones outstay their expiry. */
  lemma UsableEntriesAreShortLived(entry: Entry, now: int)
    requires Usable(entry, now)
    ensures now + SECOND <= Deadline(entry, now) <= now + 5 * 60 * SECOND
    ensures entry.expiresAt.Some? ==>
              (Deadline(entry, now) <= entry.expiresAt.value <==> entry.expiresAt.value - now >= SECOND)
  {
  }

  /** A hash that nobody knows is asked for again after a minute; what is revoked or expired,
      which never reverses, is kept for thirty days. */
  lemma UnusableEntriesLast(entry: Entry, now: int)
    requires !Usable(entry, now)
    ensures Deadline(entry, now) == now + (if entry.NotFound? then 60 else 30 * 24 * 60 * 60) * SECOND
  {
  }

  // ---- Atomic use cases ----

  /** `presented` are the hashes anybody has used so far. */
  datatype State = State(keys: Keys, cache: map<string, Cached>, presented: set<string>)

  datatype Op =
    | Create(hash: string, key: ApiKey)
    | Revoke(hash: string, at: int, invalidated: bool)
    | Authenticate(raw: string, hash: string, now: int, storedAt: int, hit: bool, stored: bool)
    | Evict(hash: string)

  function RevokedKey(key: ApiKey, at: int): ApiKey {
    if key.revokedAt.Some? then key else key.(revokedAt := Some(at))
  }

  /** What the cache answers, if it has a live entry and can be read. */
  function CachedFacts(cache: map<string, Cached>, hash: string, now: int, hit: bool): Option<Entry> {
    if hit && hash in cache && now < cache[hash].deadline then Some(cache[hash].entry) else None
  }

  /** One use case; only `Authenticate` answers.  `hit` is false when the cached entry is
      lost or unreadable, `stored` when the write to the cache is dropped. */
  function Perform(s: State, op: Op): (State, seq<Answer>) {
    match op
    case Create(hash, key) => (s.(keys := s.keys[hash := key], presented := s.presented + {hash}), [])
    case Revoke(hash, at, invalidated) =>
      if hash !in s.keys then (s, []) else
      (s.(keys := s.keys[hash := RevokedKey(s.keys[hash], at)],
          cache := if invalidated then s.cache - {hash} else s.cache), [])
    case Evict(hash) => (s.(cache := s.cache - {hash}), [])
    case Authenticate(raw, hash, now, storedAt, hit, stored) =>
      if !WellShaped(raw) then (s, [Err(Malformed)]) else
      var used := s.(presented := s.presented + {hash});
      match CachedFacts(s.cache, hash, now, hit)
      case Some(entry) => (used, [Evaluate(entry, now)])
      case None =>
        var entry := FactsOf(s.keys, hash);
        (if stored then used.(cache := s.cache[hash := Cached(entry, Deadline(entry, storedAt))]) else used,
         [Evaluate(entry, now)])
  }

  /** The same use case without any cache. */
  function PerformDirectly(keys: Keys, op: Op): (Keys, seq<Answer>) {
    match op
    case Create(hash, key) => (keys[hash := key], [])
    case Revoke(hash, at, _) => (if hash in keys then keys[hash := RevokedKey(keys[hash], at)] else keys, [])
    case Evict(_) => (keys, [])
    case Authenticate(raw, hash, now, _, _, _) =>
      (keys, [if WellShaped(raw) then Evaluate(FactsOf(keys, hash), now) else Err(Malformed)])
  }

  function Run(s: State, ops: seq<Op>): (State, seq<Answer>)
    decreases |ops|
  {
    if ops == [] then (s, []) else
    var (next, first) := Perform(s, ops[0]);
    var (end, rest) := Run(next, ops[1..]);
    (end, first + rest)
  }

  function RunDirectly(keys: Keys, ops: seq<Op>): (Keys, seq<Answer>)
    decreases |ops|
  {
    if ops == [] then (keys, []) else
    var (next, first) := PerformDirectly(keys, ops[0]);
    var (end, rest) := RunDirectly(next, ops[1..]);
    (end, first + rest)
  }

  /** A new secret is one nobody has presented before, and a revocation reaches the cache. */
  predicate Allowed(s: State, op: Op) {
    (op.Create? ==> op.hash !in s.presented) && (op.Revoke? ==> op.invalidated)
  }

  predicate AllowedRun(s: State, ops: seq<Op>)
    decreases |ops|
  {
    ops == [] || (Allowed(s, ops[0]) && AllowedRun(Perform(s, ops[0]).0, ops[1..]))
  }

  /** Every cached fact is a fact of the database. */
  predicate Faithful(s: State) {
    && (forall hash :: hash in s.cache ==> s.cache[hash].entry == FactsOf(s.keys, hash))
    && s.cache.Keys <= s.presented && s.keys.Keys <= s.presented
  }

  lemma OpsStayFaithful(s: State, op: Op)
    requires Faithful(s) && Allowed(s, op)
    ensures Faithful(Perform(s, op).0)
    ensures (Perform(s, op).0.keys, Perform(s, op).1) == PerformDirectly(s.keys, op)
  {
  }

  /** Caching is invisible: over any run, whatever is evicted, missed or dropped, the
      answers are exactly those of the database alone. */
  lemma {:induction false} CachingIsInvisible(s: State, ops: seq<Op>)
    requires Faithful(s) && AllowedRun(s, ops)
    ensures Faithful(Run(s, ops).0)
    ensures (Run(s, ops).0.keys, Run(s, ops).1) == RunDirectly(s.keys, ops)
    decreases |ops|
  {
    if ops == [] {
    } else {
      OpsStayFaithful(s, ops[0]);
      CachingIsInvisible(Perform(s, ops[0]).0, ops[1..]);
    }
  }

  /** While cached facts are facts of the database, an authentication accepts a key if and only
      if it is well-formed, stored, not revoked and not expired, and then it names that key;
      and of a key that is both it says that it is revoked. */
  lemma AcceptedExactlyWhen(s: State, raw: string, hash: string, now: int, storedAt: int, hit: bool, stored: bool)
    requires Faithful(s)
    ensures var answers := Perform(s, Authenticate(raw, hash, now, storedAt, hit, stored)).1;
            && |answers| == 1
            && (answers[0].Ok? <==>
                  && WellShaped(raw) && hash in s.keys && s.keys[hash].revokedAt == None
                  && (s.keys[hash].expiresAt.Some? ==> now < s.keys[hash].expiresAt.value))
            && (answers[0].Ok? ==>
                  var key := s.keys[hash]; answers[0].value == Principal(key.id, key.projectId, key.prefix))
            && (answers[0] == Err(Malformed) <==> !WellShaped(raw))
            && (answers[0] == Err(Unknown) <==> WellShaped(raw) && hash !in s.keys)
            && (answers[0] == Err(Revoked) <==> WellShaped(raw) && hash in s.keys && s.keys[hash].revokedAt.Some?)
  {
  }

  /** A revocation that does not reach the cache is overlooked exactly when a usable entry
      for the key is cached and can be read. */
  lemma OverlookedExactlyWhen(s: State, raw: string, hash: string, at: int, now: int, storedAt: int, hit: bool,
      stored: bool)
    requires Faithful(s) && hash in s.keys && WellShaped(raw)
    ensures var revoked := Perform(s, Revoke(hash, at, false)).0;
            var answer := Perform(revoked, Authenticate(raw, hash, now, storedAt, hit, stored)).1[0];
            && PerformDirectly(revoked.keys, Authenticate(raw, hash, now, storedAt, hit, stored)).1 == [Err(Revoked)]
            && (answer != Err(Revoked) <==>
                  && CachedFacts(s.cache, hash, now, hit).Some? && s.keys[hash].revokedAt.None?)
            && (answer.Ok? <==> CachedFacts(s.cache, hash, now, hit).Some? && Usable(FactsOf(s.keys, hash), now))
  {
  }

  // ---- The services ----

  class RedisApiKeyAuthCache {
    var entries: map<string, Cached>

    constructor ()
      ensures entries == map[]
    {
      entries := map[];
    }

    /** A failing read, or an unreadable entry, is a miss. */
    method Get(hash: string, now: int, readable: bool) returns (r: Option<Entry>)
      ensures r == CachedFacts(entries, hash, now, readable)
    {
      if !readable || hash !in entries || now >= entries[hash].deadline {
        return None;
      }
      r := Some(entries[hash].entry);
    }

    /** A failing write is dropped. */
    method Set(hash: string, entry: Entry, now: int, stored: bool)
      modifies this
      ensures entries == if stored then old(entries)[hash := Cached(entry, Deadline(entry, now))] else old(entries)
    {
      if stored {
        entries := entries[hash := Cached(entry, Deadline(entry, now))];
      }
    }

    method Invalidate(hash: string, reachable: bool) returns (done: bool)
      modifies this
      ensures done == reachable && entries == if reachable then old(entries) - {hash} else old(entries)
    {
      if reachable {
        entries := entries - {hash};
      }
      done := reachable;
    }
  }

  class ApiKeyRepository {
    var keys: Keys

    constructor ()
      ensures keys == map[]
    {
      keys := map[];
    }

    method GetByHash(hash: string) returns (r: Option<ApiKey>)
      ensures r == if hash in keys then Some(keys[hash]) else None
    {
      r := if hash in keys then Some(keys[hash]) else None;
    }

    method Save(hash: string, key: ApiKey)
      modifies this
      ensures keys == old(keys)[hash := key]
    {
      keys := keys[hash := key];
    }
  }

  datatype RevokeError = NoSuchKey | StateUnavailable

  class ApiKeyService {
    const cache: RedisApiKeyAuthCache
    const repository: ApiKeyRepository

    constructor (cache: RedisApiKeyAuthCache, repository: ApiKeyRepository)
      ensures this.cache == cache && this.repository == repository
    {
      this.cache, this.repository := cache, repository;
    }

    /** The state of both stores, given what has been presented so far. */
    function Now(presented: set<string>): State
      reads cache, repository
    {
      State(repository.keys, cache.entries, presented)
    }

    /** Authenticate a raw key whose hash is `hash`. */
    method Authenticate(raw: string, hash: string, now: int, storedAt: int, hit: bool, stored: bool,
        ghost presented: set<string>)
      returns (r: Answer)
      modifies cache
      ensures var (end, answers) := Perform(old(Now(presented)),
            Op.Authenticate(raw, hash, now, storedAt, hit, stored));
              Now(end.presented) == end && answers == [r]
      ensures Faithful(old(Now(presented))) && WellShaped(raw) ==> r == Evaluate(FactsOf(repository.keys, hash), now)
    {
      if !WellShaped(raw) {
        return Err(Malformed);
      }
      var entry := cache.Get(hash, now, hit);
      if entry.Some? {
        return Evaluate(entry.value, now);
      }
      var key := repository.GetByHash(hash);
      var facts := if key.None? then NotFound
                   else Found(key.value.id, key.value.projectId, key.value.prefix, key.value.revokedAt,
                         key.value.expiresAt);
      cache.Set(hash, facts, storedAt, stored);
      r := Evaluate(facts, now);
    }

    method CreateKey(hash: string, key: ApiKey, ghost presented: set<string>)
      modifies repository
      ensures Now(presented + {hash}) == Perform(old(Now(presented)), Create(hash, key)).0
    {
      repository.Save(hash, key);
    }

    /** Revoke, then invalidate; a failing invalidation is reported, but the key stays
        revoked in the database. */
    method RevokeKey(hash: string, at: int, reachable: bool, ghost presented: set<string>)
        returns (r: Option<RevokeError>)
      modifies cache, repository
      ensures Now(presented) == Perform(old(Now(presented)), Revoke(hash, at, reachable)).0
      ensures r == (if hash !in old(repository.keys) then Some(NoSuchKey)
                    else if reachable then None else Some(StateUnavailable))
      ensures hash in repository.keys ==> repository.keys[hash].revokedAt.Some?
    {
      var key := repository.GetByHash(hash);
      if key.None? {
        return Some(NoSuchKey);
      }
      repository.Save(hash, if key.value.revokedAt.Some? then key.value else key.value.(revokedAt := Some(at)));
      var done := cache.Invalidate(hash, reachable);
      r := if done then None else Some(StateUnavailable);
    }
  }
}
