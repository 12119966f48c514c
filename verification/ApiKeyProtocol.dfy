/** Authentications and revocations whose steps interleave: how long a revoked key can still
    be accepted. */
module ApiKeyProtocol {
  import opened Domain
  import opened ApiKeyCache

  /** A cached entry with the instants at which it was read from the database and stored. */
  datatype Dated = Dated(cached: Cached, readAt: int, storedAt: int)

  /** Where a request stands between two of its steps.  An authentication takes its clock
      reading, looks into the cache or the database, may store what it read, and answers; a
      revocation loads the key, marks it with the present time, commits it, and invalidates
      the cached entry.  `own` tells that the mark is this revocation's and was not there
      before. */
  datatype Phase =
    | Idle
    | Asked(hash: string, startedAt: int)
    | HasRead(hash: string, entry: Entry, startedAt: int, readAt: int)
    | Answering(hash: string, entry: Entry, startedAt: int)
    | Loaded(hash: string, key: ApiKey)
    | Marked(hash: string, key: ApiKey, own: bool)
    | Committed(hash: string)

  datatype Reply = Reply(hash: string, startedAt: int, at: int, answer: Answer)

  /** `committedAt` holds, for every key that was ever revoked, when a revocation of it was
      first committed. */
  datatype World = World(
    now: int,
    keys: Keys,
    cache: map<string, Dated>,
    committedAt: map<string, int>,
    phases: map<nat, Phase>,
    replies: seq<Reply>)

  datatype Step =
    | Begin(request: nat, hash: string)
    | HitCache(request: nat)
    | ReadKey(request: nat)
    | Store(request: nat, stored: bool)
    | Respond(request: nat)
    | LoadKey(request: nat, hash: string)
    | MarkRevoked(request: nat)
    | CommitKey(request: nat)
    | Invalidate(request: nat, reachable: bool)
    | Crash(request: nat)
    | CreateKey(hash: string, key: ApiKey)
    | Evict(hash: string)
    | Tick(elapsed: nat)

  function PhaseOf(w: World, k: nat): Phase {
    if k in w.phases then w.phases[k] else Idle
  }

  function Enter(w: World, k: nat, p: Phase): World {
    w.(phases := w.phases[k := p])
  }

  function Next(w: World, s: Step): Option<World> {
    match s
    case Begin(k, hash) =>
      if PhaseOf(w, k).Idle? then Some(Enter(w, k, Asked(hash, w.now))) else None
    case HitCache(k) =>
      (match PhaseOf(w, k)
       case Asked(hash, startedAt) =>
         if hash !in w.cache || w.now >= w.cache[hash].cached.deadline then None
         else Some(Enter(w, k, Answering(hash, w.cache[hash].cached.entry, startedAt)))
       case _ => None)
    case ReadKey(k) =>
      (match PhaseOf(w, k)
       case Asked(hash, startedAt) => Some(Enter(w, k, HasRead(hash, FactsOf(w.keys, hash), startedAt, w.now)))
       case _ => None)
    case Store(k, stored) =>
      (match PhaseOf(w, k)
       case HasRead(hash, entry, startedAt, readAt) =>
         var entries :=
           if stored then w.cache[hash := Dated(Cached(entry, Deadline(entry, w.now)), readAt, w.now)] else w.cache;
         Some(Enter(w, k, Answering(hash, entry, startedAt)).(cache := entries))
       case _ => None)
    case Respond(k) =>
      (match PhaseOf(w, k)
       case Answering(hash, entry, startedAt) =>
         Some(Enter(w, k, Idle).(replies := w.replies + [Reply(hash, startedAt, w.now, Evaluate(entry, startedAt))]))
       case _ => None)
    case LoadKey(k, hash) =>
      if PhaseOf(w, k).Idle? && hash in w.keys then Some(Enter(w, k, Loaded(hash, w.keys[hash]))) else None
    case MarkRevoked(k) =>
      (match PhaseOf(w, k)
       case Loaded(hash, key) => Some(Enter(w, k, Marked(hash, RevokedKey(key, w.now), key.revokedAt.None?)))
       case _ => None)
    case CommitKey(k) =>
      (match PhaseOf(w, k)
       case Marked(hash, key, _) =>
         var first := if hash in w.committedAt then w.committedAt else w.committedAt[hash := w.now];
         Some(Enter(w, k, Committed(hash)).(keys := w.keys[hash := key], committedAt := first))
       case _ => None)
    case Invalidate(k, reachable) =>
      (match PhaseOf(w, k)
       case Committed(hash) =>
         Some(Enter(w, k, Idle).(cache := if reachable then w.cache - {hash} else w.cache))
       case _ => None)
    case Crash(k) => Some(Enter(w, k, Idle))
    case CreateKey(hash, key) =>
      if hash in w.keys || key.revokedAt.Some? then None else Some(w.(keys := w.keys[hash := key]))
    case Evict(hash) => Some(w.(cache := w.cache - {hash}))
    case Tick(elapsed) => Some(w.(now := w.now + elapsed))
  }

  predicate Initial(w: World) {
    w.keys == map[] && w.cache == map[] && w.committedAt == map[] && w.phases == map[] && w.replies == []
  }

  ghost predicate Execution(states: seq<World>, steps: seq<Step>) {
    && |states| == |steps| + 1
    && Initial(states[0])
    && forall i :: 0 <= i < |steps| ==> Next(states[i], steps[i]) == Some(states[i + 1])
  }

  predicate Authenticating(p: Phase) {
    p.Asked? || p.HasRead? || p.Answering?
  }

  /** No authentication takes longer than `d`. */
  ghost predicate Prompt(w: World, d: int) {
    forall k: nat :: Authenticating(PhaseOf(w, k)) ==> w.now <= PhaseOf(w, k).startedAt + d
  }

  // ---- From the commit on ----

  predicate ShowsUnrevoked(entry: Entry) {
    entry.Found? && entry.revokedAt.None?
  }

  /** Facts that show the key as not revoked were read no later than the first commit. */
  predicate Timely(w: World, hash: string, entry: Entry, readAt: int) {
    ShowsUnrevoked(entry) && hash in w.committedAt ==> readAt <= w.committedAt[hash]
  }

  /** The bound on accepting a revoked key: the request started in time. */
  predicate InTime(w: World, hash: string, startedAt: int, answer: Answer, d: int) {
    answer.Ok? && hash in w.committedAt ==> startedAt < w.committedAt[hash] + d + ACTIVE_TTL
  }

  predicate PhaseSound(w: World, p: Phase, d: int) {
    match p
    case Idle => true
    case Asked(_, startedAt) => startedAt <= w.now
    case HasRead(hash, entry, startedAt, readAt) => startedAt <= readAt <= w.now && Timely(w, hash, entry, readAt)
    case Answering(hash, entry, startedAt) =>
      startedAt <= w.now && InTime(w, hash, startedAt, Evaluate(entry, startedAt), d)
    case Loaded(_, _) => true
    case Marked(_, key, _) => key.revokedAt.Some?
    case Committed(_) => true
  }

  predicate CacheSound(w: World, hash: string, c: Dated, d: int) {
    && Timely(w, hash, c.cached.entry, c.readAt)
    && c.readAt <= c.storedAt <= c.readAt + d && c.storedAt <= w.now
    && c.cached.deadline == Deadline(c.cached.entry, c.storedAt)
  }

  predicate ReplySound(w: World, r: Reply, d: int) {
    r.startedAt <= r.at <= w.now && r.at <= r.startedAt + d && InTime(w, r.hash, r.startedAt, r.answer, d)
  }

  /** A key is revoked in the database exactly from its first commit on. */
  predicate KeySound(w: World, hash: string) {
    && (hash in w.committedAt ==> w.committedAt[hash] <= w.now)
    && (hash in w.committedAt <==> hash in w.keys && w.keys[hash].revokedAt.Some?)
  }

  ghost predicate Sound(w: World, d: int) {
    && (forall hash: string :: KeySound(w, hash))
    && (forall k: nat :: PhaseSound(w, PhaseOf(w, k), d))
    && (forall hash :: hash in w.cache ==> CacheSound(w, hash, w.cache[hash], d))
    && (forall r :: r in w.replies ==> ReplySound(w, r, d))
  }

  /** The first commit of a revocation stays the first. */
  lemma CommitsStay(w: World, s: Step, hash: string)
    requires Next(w, s).Some?
    ensures var v := Next(w, s).value;
            && w.now <= v.now
            && (hash in w.committedAt ==> hash in v.committedAt && v.committedAt[hash] == w.committedAt[hash])
            && (hash !in w.committedAt && hash in v.committedAt ==> v.committedAt[hash] == w.now == v.now)
  {
  }

  lemma KeysStaySound(w: World, s: Step, d: int, hash: string)
    requires Sound(w, d) && Next(w, s).Some?
    ensures KeySound(Next(w, s).value, hash)
  {
    assert KeySound(w, hash);
    if s.CommitKey? {
      assert PhaseSound(w, PhaseOf(w, s.request), d);
    }
  }

  /** A live entry is acceptable to a request that started in time only. */
  lemma HitsAreInTime(w: World, hash: string, startedAt: int, d: int)
    requires 0 <= d && hash in w.cache && CacheSound(w, hash, w.cache[hash], d)
    requires startedAt <= w.now < w.cache[hash].cached.deadline
    ensures InTime(w, hash, startedAt, Evaluate(w.cache[hash].cached.entry, startedAt), d)
  {
    var c := w.cache[hash];
    if Usable(c.cached.entry, c.storedAt) {
      UsableEntriesAreShortLived(c.cached.entry, c.storedAt);
    }
  }

  lemma PhasesStaySound(w: World, s: Step, d: int, k: nat)
    requires 0 <= d && Sound(w, d) && Next(w, s).Some?
    ensures PhaseSound(Next(w, s).value, PhaseOf(Next(w, s).value, k), d)
  {
    var v := Next(w, s).value;
    var p := PhaseOf(v, k);
    assert PhaseSound(w, PhaseOf(w, k), d);
    if Authenticating(p) {
      CommitsStay(w, s, p.hash);
      if s.HitCache? && k == s.request {
        HitsAreInTime(w, p.hash, p.startedAt, d);
      }
      if s.ReadKey? && k == s.request {
        assert KeySound(w, p.hash);
      }
    }
  }

  lemma CacheStaysSound(w: World, s: Step, d: int, hash: string)
    requires Sound(w, d) && Prompt(w, d) && Next(w, s).Some? && hash in Next(w, s).value.cache
    ensures CacheSound(Next(w, s).value, hash, Next(w, s).value.cache[hash], d)
  {
    CommitsStay(w, s, hash);
    if s.Store? {
      assert PhaseSound(w, PhaseOf(w, s.request), d);
    }
    assert hash in w.cache ==> CacheSound(w, hash, w.cache[hash], d);
  }

  lemma RepliesStaySound(w: World, s: Step, d: int, r: Reply)
    requires 0 <= d && Sound(w, d) && Prompt(w, d) && Next(w, s).Some? && r in Next(w, s).value.replies
    ensures ReplySound(Next(w, s).value, r, d)
  {
    CommitsStay(w, s, r.hash);
    if r in w.replies {
      assert ReplySound(w, r, d);
    } else {
      assert PhaseSound(w, PhaseOf(w, s.request), d);
    }
  }

  lemma SoundStep(w: World, s: Step, d: int)
    requires 0 <= d && Sound(w, d) && Prompt(w, d) && Next(w, s).Some?
    ensures Sound(Next(w, s).value, d)
  {
    var v := Next(w, s).value;
    forall hash: string ensures KeySound(v, hash) {
      KeysStaySound(w, s, d, hash);
    }
    forall k: nat ensures PhaseSound(v, PhaseOf(v, k), d) {
      PhasesStaySound(w, s, d, k);
    }
    forall hash | hash in v.cache ensures CacheSound(v, hash, v.cache[hash], d) {
      CacheStaysSound(w, s, d, hash);
    }
    forall r | r in v.replies ensures ReplySound(v, r, d) {
      RepliesStaySound(w, s, d, r);
    }
  }

  lemma {:induction false} AlwaysSound(states: seq<World>, steps: seq<Step>, d: int, i: nat)
    requires 0 <= d && Execution(states, steps) && i < |states|
    requires forall j :: 0 <= j < i ==> Prompt(states[j], d)
    ensures Sound(states[i], d)
  {
    if i == 0 {
      forall k: nat ensures PhaseOf(states[0], k).Idle? {}
    } else {
      AlwaysSound(states, steps, d, i - 1);
      assert Next(states[i - 1], steps[i - 1]) == Some(states[i]);
      SoundStep(states[i - 1], steps[i - 1], d);
    }
  }

  /** In every interleaving, with revocations that race each other and invalidations that
      race or fail: a request that starts five minutes and the longest duration of a request
      after a revocation of the key was first committed is never accepted. */
  lemma RevocationTakesEffectInTime(states: seq<World>, steps: seq<Step>, d: int, i: nat, r: Reply)
    requires 0 <= d && Execution(states, steps) && i < |states|
    requires forall j :: 0 <= j < i ==> Prompt(states[j], d)
    requires r in states[i].replies && r.answer.Ok? && r.hash in states[i].committedAt
    ensures r.startedAt < states[i].committedAt[r.hash] + d + 5 * 60 * SECOND
    ensures r.startedAt <= r.at <= r.startedAt + d
  {
    AlwaysSound(states, steps, d, i);
    assert ReplySound(states[i], r, d);
  }

  // ---- In terms of the stored revocation time ----

  /** No revocation takes longer than `e` from its mark to its commit. */
  ghost predicate PromptlyCommitted(w: World, e: int) {
    forall k: nat :: OwnMark(PhaseOf(w, k)) ==> w.now <= PhaseOf(w, k).key.revokedAt.value + e
  }

  predicate OwnMark(p: Phase) {
    p.Marked? && p.own && p.key.revokedAt.Some?
  }

  /** A revocation time that was in the database is at most `e` before the first commit. */
  predicate Recent(w: World, hash: string, key: ApiKey, e: int) {
    key.revokedAt.Some? ==> hash in w.committedAt && w.committedAt[hash] <= key.revokedAt.value + e
  }

  predicate MarkSound(w: World, p: Phase, e: int) {
    && (p.Loaded? ==> Recent(w, p.hash, p.key, e))
    && (p.Marked? ==> p.key.revokedAt.Some? && (!p.own ==> Recent(w, p.hash, p.key, e)))
  }

  ghost predicate MarksSound(w: World, e: int) {
    && (forall hash :: hash in w.committedAt ==> w.committedAt[hash] <= w.now)
    && (forall hash :: hash in w.keys ==> Recent(w, hash, w.keys[hash], e))
    && (forall k: nat :: MarkSound(w, PhaseOf(w, k), e))
  }

  lemma MarkStaysSound(w: World, s: Step, e: int, k: nat)
    requires MarksSound(w, e) && Next(w, s).Some?
    ensures MarkSound(Next(w, s).value, PhaseOf(Next(w, s).value, k), e)
  {
    var p := PhaseOf(Next(w, s).value, k);
    assert MarkSound(w, PhaseOf(w, k), e);
    if p.Loaded? || p.Marked? {
      CommitsStay(w, s, p.hash);
    }
  }

  /** Whoever commits a mark does so at most `e` after the mark it writes. */
  lemma CommitsAreRecent(w: World, s: Step, e: int, hash: string)
    requires MarksSound(w, e) && PromptlyCommitted(w, e) && Next(w, s).Some? && hash in Next(w, s).value.keys
    ensures Recent(Next(w, s).value, hash, Next(w, s).value.keys[hash], e)
  {
    CommitsStay(w, s, hash);
    if s.CommitKey? && PhaseOf(w, s.request).hash == hash {
      assert MarkSound(w, PhaseOf(w, s.request), e);
      assert OwnMark(PhaseOf(w, s.request)) ==> w.now <= PhaseOf(w, s.request).key.revokedAt.value + e;
    } else {
      assert hash in w.keys ==> Recent(w, hash, w.keys[hash], e);
    }
  }

  lemma MarksStaySound(w: World, s: Step, e: int)
    requires MarksSound(w, e) && PromptlyCommitted(w, e) && Next(w, s).Some?
    ensures MarksSound(Next(w, s).value, e)
  {
    var v := Next(w, s).value;
    forall hash | hash in v.keys ensures Recent(v, hash, v.keys[hash], e) {
      CommitsAreRecent(w, s, e, hash);
    }
    forall k: nat ensures MarkSound(v, PhaseOf(v, k), e) {
      MarkStaysSound(w, s, e, k);
    }
    forall hash | hash in v.committedAt ensures v.committedAt[hash] <= v.now {
      CommitsStay(w, s, hash);
    }
  }

  lemma {:induction false} AlwaysRecent(states: seq<World>, steps: seq<Step>, e: int, i: nat)
    requires Execution(states, steps) && i < |states|
    requires forall j :: 0 <= j < i ==> PromptlyCommitted(states[j], e)
    ensures MarksSound(states[i], e)
  {
    if i == 0 {
      forall k: nat ensures PhaseOf(states[0], k).Idle? {}
    } else {
      AlwaysRecent(states, steps, e, i - 1);
      assert Next(states[i - 1], steps[i - 1]) == Some(states[i]);
      MarksStaySound(states[i - 1], steps[i - 1], e);
    }
  }

  /** If revocations are also committed within `e` of their mark, the same holds counting
      from the stored revocation time, with `e` added; even when racing revocations have
      overwritten it. */
  lemma RevocationTimeIsABound(states: seq<World>, steps: seq<Step>, d: int, e: int, i: nat, r: Reply)
    requires 0 <= d && Execution(states, steps) && i < |states|
    requires forall j :: 0 <= j < i ==> Prompt(states[j], d) && PromptlyCommitted(states[j], e)
    requires r in states[i].replies && r.answer.Ok?
    requires r.hash in states[i].keys && states[i].keys[r.hash].revokedAt.Some?
    ensures r.startedAt < states[i].keys[r.hash].revokedAt.value + e + d + 5 * 60 * SECOND
  {
    AlwaysSound(states, steps, d, i);
    AlwaysRecent(states, steps, e, i);
    assert ReplySound(states[i], r, d) && Recent(states[i], r.hash, states[i].keys[r.hash], e);
  }
}
