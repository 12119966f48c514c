/** Executions showing what the bounds on revoked keys depend on. */
module ApiKeyWitnesses {
  import opened Domain
  import opened ApiKeyCache
  import opened ApiKeyProtocol

  /** Nobody is authenticating. */
  ghost predicate Quiet(w: World) {
    forall k: nat :: !Authenticating(PhaseOf(w, k))
  }

  /** Every authentication in these states is over in the instant in which it starts. */
  ghost predicate Instant(states: seq<World>) {
    forall j :: 0 <= j < |states| ==> Prompt(states[j], 0)
  }

  /** Lengthen an execution by one step. */
  lemma Extend(states: seq<World>, steps: seq<Step>, s: Step) returns (states': seq<World>, steps': seq<Step>)
    requires Execution(states, steps)
    requires Next(states[|steps|], s).Some?
    ensures Execution(states', steps')
    ensures states' == states + [Next(states[|steps|], s).value] && steps' == steps + [s]
  {
    states', steps' := states + [Next(states[|steps|], s).value], steps + [s];
  }

  /** The key is stored, not revoked, and does not expire. */
  predicate Plain(keys: Keys, hash: string) {
    hash in keys && keys[hash].revokedAt.None? && keys[hash].expiresAt.None?
  }

  function PrincipalOf(key: ApiKey): Principal {
    Principal(key.id, key.projectId, key.prefix)
  }

  /** The facts about a key, read and stored at `at`. */
  function DatedFacts(keys: Keys, hash: string, at: int): Dated {
    Dated(Cached(FactsOf(keys, hash), at + ACTIVE_TTL), at, at)
  }

  /** Lengthen it, with nobody authenticating for longer than an instant. */
  lemma Proceed(states: seq<World>, steps: seq<Step>, s: Step, v: World)
    returns (states': seq<World>, steps': seq<Step>)
    requires Execution(states, steps) && Instant(states)
    requires Next(states[|steps|], s) == Some(v) && Prompt(v, 0)
    ensures Execution(states', steps') && Instant(states')
    ensures states' == states + [v] && steps' == steps + [s]
  {
    states', steps' := Extend(states, steps, s);
  }

  /** One request that started just now does not take long yet. */
  lemma OneAsking(w: World, v: World, k: nat, p: Phase)
    requires Quiet(w) && v.now == w.now && forall j: nat :: PhaseOf(v, j) == if j == k then p else PhaseOf(w, j)
    requires Authenticating(p) ==> p.startedAt == w.now
    ensures Prompt(v, 0)
    ensures !Authenticating(p) ==> Quiet(v)
  {
    forall j: nat ensures Authenticating(PhaseOf(v, j)) ==> j == k {
      assert !Authenticating(PhaseOf(w, j));
    }
  }

  /** The state after a request has been answered from facts stored just now. */
  function AfterAsking(w: World, k: nat, hash: string): World {
    var accepted := Reply(hash, w.now, w.now, Evaluate(FactsOf(w.keys, hash), w.now));
    w.(cache := w.cache[hash := DatedFacts(w.keys, hash, w.now)], phases := w.phases[k := Idle],
       replies := w.replies + [accepted])
  }

  /** An authentication that misses the cache: the key is accepted, and cached for five
      minutes. */
  lemma AskDatabase(states: seq<World>, steps: seq<Step>, k: nat, hash: string)
    returns (states': seq<World>, steps': seq<Step>)
    requires Execution(states, steps) && Instant(states)
    requires Quiet(states[|steps|]) && PhaseOf(states[|steps|], k).Idle? && Plain(states[|steps|].keys, hash)
    ensures Execution(states', steps') && Instant(states') && states'[0] == states[0]
    ensures states'[|steps'|] == AfterAsking(states[|steps|], k, hash) && Quiet(states'[|steps'|])
    ensures states'[|steps'|].replies[|states[|steps|].replies|].answer.Ok?
  {
    var w := states[|steps|];
    var facts := FactsOf(w.keys, hash);
    var p1, p2 := Phase.Asked(hash, w.now), HasRead(hash, facts, w.now, w.now);
    var p3 := Answering(hash, facts, w.now);
    var w1 := Enter(w, k, p1);
    var w2 := Enter(w1, k, p2);
    var w3 := Enter(w2, k, p3).(cache := w.cache[hash := DatedFacts(w.keys, hash, w.now)]);
    OneAsking(w, w1, k, p1);
    OneAsking(w, w2, k, p2);
    OneAsking(w, w3, k, p3);
    OneAsking(w, AfterAsking(w, k, hash), k, Idle);
    assert w3.phases[k := Idle] == w.phases[k := Idle];
    states', steps' := Proceed(states, steps, Begin(k, hash), w1);
    states', steps' := Proceed(states', steps', ReadKey(k), w2);
    states', steps' := Proceed(states', steps', Store(k, true), w3);
    states', steps' := Proceed(states', steps', Respond(k), AfterAsking(w, k, hash));
  }

  /** An authentication that finds the cached entry of a plain key. */
  lemma AskCache(states: seq<World>, steps: seq<Step>, k: nat, hash: string, keys: Keys, at: int)
    returns (states': seq<World>, steps': seq<Step>)
    requires Execution(states, steps) && Plain(keys, hash)
    requires var w := states[|steps|];
             && PhaseOf(w, k).Idle?
             && hash in w.cache && w.cache[hash] == DatedFacts(keys, hash, at) && w.now < at + ACTIVE_TTL
    ensures Execution(states', steps') && states <= states' && steps <= steps' && |steps'| == |steps| + 3
    ensures var w, v := states[|steps|], states'[|steps'|];
            v == w.(phases := w.phases[k := Idle],
                    replies := w.replies + [Reply(hash, w.now, w.now, Ok(PrincipalOf(keys[hash])))])
    ensures Instant(states) && Quiet(states[|steps|]) ==> Instant(states')
  {
    var w := states[|steps|];
    var p1, p2 := Phase.Asked(hash, w.now), Answering(hash, FactsOf(keys, hash), w.now);
    var w1, w2 := Enter(w, k, p1), Enter(w, k, p2);
    assert w1.phases[k := p2] == w2.phases && w2.phases[k := Idle] == w.phases[k := Idle];
    states', steps' := Extend(states, steps, Begin(k, hash));
    states', steps' := Extend(states', steps', HitCache(k));
    assert states'[|steps'|] == w2;
    states', steps' := Extend(states', steps', Respond(k));
    if Quiet(w) {
      OneAsking(w, w1, k, p1);
      OneAsking(w, w2, k, p2);
      OneAsking(w, states'[|steps'|], k, Idle);
      assert states' == states + [w1, w2, states'[|steps'|]];
    }
  }

  /** A single step of the revoking side, while nobody is authenticating. */
  lemma Aside(states: seq<World>, steps: seq<Step>, s: Step) returns (states': seq<World>, steps': seq<Step>)
    requires Execution(states, steps) && Instant(states) && Quiet(states[|steps|])
    requires Next(states[|steps|], s).Some? && !s.Begin?
    ensures Execution(states', steps') && Instant(states') && states'[0] == states[0]
    ensures states'[|steps'|] == Next(states[|steps|], s).value && Quiet(states'[|steps'|])
  {
    var w, v := states[|steps|], Next(states[|steps|], s).value;
    forall k: nat ensures !Authenticating(PhaseOf(v, k)) {
      assert !Authenticating(PhaseOf(w, k));
      assert !s.CreateKey? && !s.Evict? && !s.Tick? ==> !Authenticating(PhaseOf(w, s.request));
    }
    states', steps' := Proceed(states, steps, s, v);
  }

  /** A key that a revocation has marked, but not committed yet. */
  lemma MarkKey(start: World, hash: string, key: ApiKey) returns (states: seq<World>, steps: seq<Step>)
    requires Initial(start) && key.revokedAt.None?
    ensures Execution(states, steps) && Instant(states) && states[0] == start && Quiet(states[|steps|])
    ensures states[|steps|]
            == start.(keys := map[hash := key], phases := map[1 := Marked(hash, RevokedKey(key, start.now), true)])
  {
    forall k: nat ensures PhaseOf(start, k).Idle? {}
    states, steps := [start], [];
    states, steps := Aside(states, steps, CreateKey(hash, key));
    states, steps := Aside(states, steps, LoadKey(1, hash));
    states, steps := Aside(states, steps, MarkRevoked(1));
    assert states[|steps|].phases == map[1 := Marked(hash, RevokedKey(key, start.now), true)];
  }

  /** Commit a marked key without reaching the cache. */
  lemma CommitUnreached(states: seq<World>, steps: seq<Step>, hash: string, key: ApiKey)
    returns (states': seq<World>, steps': seq<Step>)
    requires Execution(states, steps) && Instant(states) && Quiet(states[|steps|])
    requires PhaseOf(states[|steps|], 1) == Marked(hash, key, true)
    ensures Execution(states', steps') && Instant(states') && states'[0] == states[0] && Quiet(states'[|steps'|])
    ensures var w, v := states[|steps|], states'[|steps'|];
            && v.keys == w.keys[hash := key]
            && (v.now, v.cache, v.replies, v.phases) == (w.now, w.cache, w.replies, w.phases[1 := Idle])
  {
    states', steps' := Aside(states, steps, CommitKey(1));
    states', steps' := Aside(states', steps', Invalidate(1, false));
    assert states'[|steps'|].phases == states[|steps|].phases[1 := Idle];
  }

  /** The bound cannot be counted from the stored revocation time alone: however prompt the
      authentications are, for any delay between the mark of a revocation and its commit
      there is a run in which a request that starts this delay and almost five minutes after
      the stored revocation time is accepted. */
  lemma StampsAreTooEarly(start: World, hash: string, key: ApiKey, delay: nat)
    returns (states: seq<World>, steps: seq<Step>)
    requires Initial(start) && key.revokedAt.None? && key.expiresAt.None?
    ensures Execution(states, steps) && states[0] == start && Instant(states)
    ensures var v := states[|steps|];
            && hash in v.keys && v.keys[hash].revokedAt.Some? && |v.replies| == 2
            && v.replies[1].hash == hash && v.replies[1].answer.Ok?
            && v.replies[1].startedAt == v.keys[hash].revokedAt.value + delay + ACTIVE_TTL - 1
  {
    states, steps := MarkKey(start, hash, key);
    states, steps := Aside(states, steps, Tick(delay));
    var keys, at := states[|steps|].keys, states[|steps|].now;
    states, steps := AskDatabase(states, steps, 0, hash);
    states, steps := CommitUnreached(states, steps, hash, RevokedKey(key, start.now));
    states, steps := Aside(states, steps, Tick(ACTIVE_TTL - 1));
    states, steps := AskCache(states, steps, 2, hash, keys, at);
  }

  /** A key that a request has read, and that has been revoked and invalidated since. */
  lemma OvertakenRead(start: World, hash: string, key: ApiKey) returns (states: seq<World>, steps: seq<Step>)
    requires Initial(start) && key.revokedAt.None? && key.expiresAt.None?
    ensures Execution(states, steps) && states[0] == start && |steps| == 7 && steps[6] == Invalidate(1, true)
    ensures var v := states[7];
            && v.now == start.now && v.cache == map[] && v.replies == [] && hash in v.committedAt
            && v.phases == map[0 := HasRead(hash, FactsOf(map[hash := key], hash), start.now, start.now), 1 := Idle]
  {
    states, steps := [start], [];
    states, steps := Extend(states, steps, CreateKey(hash, key));
    states, steps := Extend(states, steps, Begin(0, hash));
    states, steps := Extend(states, steps, ReadKey(0));
    var read := HasRead(hash, FactsOf(map[hash := key], hash), start.now, start.now);
    assert states[3] == start.(keys := map[hash := key], phases := map[0 := read]);
    states, steps := Extend(states, steps, LoadKey(1, hash));
    states, steps := Extend(states, steps, MarkRevoked(1));
    states, steps := Extend(states, steps, CommitKey(1));
    states, steps := Extend(states, steps, Invalidate(1, true));
  }

  /** The use cases do have to be atomic for the cache to be invisible: a request that read
      the key before its revocation can put it back after the invalidation, so that the key
      is accepted although its revocation has been completed. */
  lemma RevocationCanBeOvertaken(start: World, hash: string, key: ApiKey) returns (states: seq<World>, steps: seq<Step>)
    requires Initial(start) && key.revokedAt.None? && key.expiresAt.None?
    ensures Execution(states, steps) && states[0] == start && |steps| == 12 && steps[6] == Invalidate(1, true)
    ensures hash in states[7].committedAt && hash !in states[7].cache && states[7].replies == []
    ensures var v := states[12]; |v.replies| == 2 && v.replies[1].hash == hash && v.replies[1].answer.Ok?
  {
    states, steps := OvertakenRead(start, hash, key);
    states, steps := Extend(states, steps, Store(0, true));
    states, steps := Extend(states, steps, Respond(0));
    assert states[9].cache == map[hash := DatedFacts(map[hash := key], hash, start.now)];
    states, steps := AskCache(states, steps, 2, hash, map[hash := key], start.now);
  }
}
