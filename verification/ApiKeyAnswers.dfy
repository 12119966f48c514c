/** What authentications with interleaved steps say is true of the key they are about. */
module ApiKeyAnswers {
  import opened Domain
  import opened ApiKeyCache
  import opened ApiKeyProtocol

  /** The same key, but for its revocation, which is never taken back. */
  predicate Succeeds(key: ApiKey, earlier: ApiKey) {
    && (key.id, key.projectId, key.prefix, key.expiresAt)
       == (earlier.id, earlier.projectId, earlier.prefix, earlier.expiresAt)
    && (earlier.revokedAt.Some? ==> key.revokedAt.Some?)
  }

  /** The facts are those of an earlier version of the stored key. */
  predicate TrueOf(w: World, hash: string, entry: Entry) {
    match entry
    case NotFound => true
    case Found(id, projectId, prefix, revokedAt, expiresAt) =>
      hash in w.keys && Succeeds(w.keys[hash], ApiKey(id, projectId, prefix, revokedAt, expiresAt))
  }

  /** What an answer says of the key, taken at its word. */
  predicate Truthful(w: World, r: Reply) {
    match r.answer
    case Ok(principal) =>
      && r.hash in w.keys
      && var key := w.keys[r.hash];
         && principal == Principal(key.id, key.projectId, key.prefix)
         && (key.expiresAt.Some? ==> r.startedAt < key.expiresAt.value)
    case Err(Revoked) => r.hash in w.keys && w.keys[r.hash].revokedAt.Some?
    case Err(Expired) =>
      r.hash in w.keys && w.keys[r.hash].expiresAt.Some? && w.keys[r.hash].expiresAt.value <= r.startedAt
    case Err(Unknown) => true
    case Err(Malformed) => false
  }

  predicate PhaseTrue(w: World, p: Phase) {
    match p
    case HasRead(hash, entry, _, _) => TrueOf(w, hash, entry)
    case Answering(hash, entry, _) => TrueOf(w, hash, entry)
    case Loaded(hash, key) => hash in w.keys && Succeeds(w.keys[hash], key)
    case Marked(hash, key, _) => key.revokedAt.Some? && hash in w.keys && Succeeds(key, w.keys[hash])
    case _ => true
  }

  ghost predicate AllTrue(w: World) {
    && (forall k: nat :: PhaseTrue(w, PhaseOf(w, k)))
    && (forall hash :: hash in w.cache ==> TrueOf(w, hash, w.cache[hash].cached.entry))
    && (forall r :: r in w.replies ==> Truthful(w, r))
  }

  /** Keys stay, and only get revoked. */
  lemma KeysSucceed(w: World, s: Step, hash: string)
    requires AllTrue(w) && Next(w, s).Some? && hash in w.keys
    ensures hash in Next(w, s).value.keys && Succeeds(Next(w, s).value.keys[hash], w.keys[hash])
  {
    if s.CommitKey? {
      assert PhaseTrue(w, PhaseOf(w, s.request));
    }
  }

  lemma PhasesStayTrue(w: World, s: Step, k: nat)
    requires AllTrue(w) && Next(w, s).Some?
    ensures PhaseTrue(Next(w, s).value, PhaseOf(Next(w, s).value, k))
  {
    var p := PhaseOf(Next(w, s).value, k);
    assert PhaseTrue(w, PhaseOf(w, k));
    if !p.Idle? && !p.Asked? {
      if p.hash in w.keys {
        KeysSucceed(w, s, p.hash);
      }
      if s.CommitKey? {
        assert PhaseTrue(w, PhaseOf(w, s.request));
      }
    }
  }

  lemma CacheStaysTrue(w: World, s: Step, hash: string)
    requires AllTrue(w) && Next(w, s).Some? && hash in Next(w, s).value.cache
    ensures TrueOf(Next(w, s).value, hash, Next(w, s).value.cache[hash].cached.entry)
  {
    if s.Store? {
      assert PhaseTrue(w, PhaseOf(w, s.request));
    }
    if hash in w.keys {
      KeysSucceed(w, s, hash);
    }
  }

  lemma RepliesStayTrue(w: World, s: Step, r: Reply)
    requires AllTrue(w) && Next(w, s).Some? && r in Next(w, s).value.replies
    ensures Truthful(Next(w, s).value, r)
  {
    if r !in w.replies {
      assert PhaseTrue(w, PhaseOf(w, s.request));
    }
    if r.hash in w.keys {
      KeysSucceed(w, s, r.hash);
    }
  }

  /** In every interleaving, however stale the cache: an accepted request names the id, project
      and prefix of the stored key with that hash, and started before the key expired; and
      nobody is told that a key is revoked or expired when it is not. */
  lemma {:induction false} AnswersAreTrue(states: seq<World>, steps: seq<Step>, i: nat)
    requires Execution(states, steps) && i < |states|
    ensures AllTrue(states[i])
    ensures forall r :: r in states[i].replies ==> Truthful(states[i], r)
  {
    if i == 0 {
      forall k: nat ensures PhaseOf(states[0], k).Idle? {}
    } else {
      AnswersAreTrue(states, steps, i - 1);
      var w, s, v := states[i - 1], steps[i - 1], states[i];
      assert Next(w, s) == Some(v);
      forall k: nat ensures PhaseTrue(v, PhaseOf(v, k)) {
        PhasesStayTrue(w, s, k);
      }
      forall hash | hash in v.cache ensures TrueOf(v, hash, v.cache[hash].cached.entry) {
        CacheStaysTrue(w, s, hash);
      }
      forall r | r in v.replies ensures Truthful(v, r) {
        RepliesStayTrue(w, s, r);
      }
    }
  }
}
