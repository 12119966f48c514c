/** Password-reset tokens in a key-value store: issuing takes several commands, consuming
    is one script, and keys may expire at any time.  A token stands for its hash. */
module ResetTokens {
  import opened Domain

  /** Two kinds of keys: the token currently good for an account, and the account of a
      token. */
  datatype Keys = Keys(current: map<nat, nat>, accounts: map<nat, nat>)

  /** The token would be accepted for the account. */
  predicate Consumable(keys: Keys, account: nat, token: nat) {
    && token in keys.accounts && keys.accounts[token] == account
    && account in keys.current && keys.current[account] == token
  }

  /** The script: check that the token is its account's current one, and delete both keys. */
  function Consume(keys: Keys, token: nat): (Keys, Option<nat>) {
    if token !in keys.accounts then (keys, None) else
    var account := keys.accounts[token];
    if account !in keys.current || keys.current[account] != token then (keys, None) else
    (Keys(keys.current - {account}, keys.accounts - {token}), Some(account))
  }

  /** The effect of an issue nobody interferes with. */
  function Issue(keys: Keys, account: nat, token: nat): Keys {
    Keys(keys.current[account := token],
         (if account in keys.current then keys.accounts - {keys.current[account]} else keys.accounts)[token := account])
  }

  /** No key knows the token, and current tokens belong to their accounts. */
  predicate Unused(keys: Keys, token: nat) {
    && token !in keys.accounts
    && forall a :: a in keys.current ==>
         keys.current[a] != token && (keys.current[a] in keys.accounts ==> keys.accounts[keys.current[a]] == a)
  }

  /** After an issue its token is the only one to be consumed for the account, and consuming
      it works once; other accounts are as before. */
  lemma IssueThenConsume(keys: Keys, account: nat, token: nat)
    requires Unused(keys, token)
    ensures var issued := Issue(keys, account, token);
            && (forall t :: Consumable(issued, account, t) <==> t == token)
            && (forall a, t :: a != account ==> (Consumable(issued, a, t) <==> Consumable(keys, a, t)))
            && Consume(issued, token).1 == Some(account)
            && Consume(Consume(issued, token).0, token) == (Consume(issued, token).0, None)
  {
  }

  /** Consuming works exactly for a consumable token, and touches no other. */
  lemma ConsumingTakesOneToken(keys: Keys, token: nat)
    ensures var (after, account) := Consume(keys, token);
            && (account.Some? ==> Consumable(keys, account.value, token))
            && (account.None? ==> after == keys && forall a :: !Consumable(keys, a, token))
            && forall a, t :: Consumable(after, a, t) <==> Consumable(keys, a, t) && t != token
  {
  }

  // ---- Issuers and consumers at once ----

  /** Where an issuer stands between two of its commands. */
  datatype Phase =
    | Idle
    | Found(account: nat, token: nat, previous: Option<nat>)
    | Cleared(account: nat, token: nat)
    | Written(account: nat, token: nat)

  /** `written` lists the writes of current tokens, and `consumed` the successful
      consumptions, each with its account. */
  datatype World = World(
    keys: Keys,
    nextToken: nat,
    phases: map<nat, Phase>,
    written: seq<(nat, nat)>,
    consumed: seq<(nat, nat)>)

  datatype Step =
    | GetPrevious(issuer: nat, account: nat)
    | DeletePrevious(issuer: nat)
    | SetCurrent(issuer: nat)
    | SetAccount(issuer: nat)
    | RunScript(token: nat)
    | ExpireCurrent(account: nat)
    | ExpireToken(token: nat)
    | Crash(issuer: nat)

  function PhaseOf(w: World, k: nat): Phase {
    if k in w.phases then w.phases[k] else Idle
  }

  function Enter(w: World, k: nat, p: Phase): World {
    w.(phases := w.phases[k := p])
  }

  function Next(w: World, s: Step): Option<World> {
    match s
    case GetPrevious(k, account) =>
      if !PhaseOf(w, k).Idle? then None else
      var previous := if account in w.keys.current then Some(w.keys.current[account]) else None;
      Some(Enter(w, k, Found(account, w.nextToken, previous)).(nextToken := w.nextToken + 1))
    case DeletePrevious(k) =>
      (match PhaseOf(w, k)
       case Found(account, token, previous) =>
         Some(Enter(w, k, Cleared(account, token))
              .(keys := if previous.Some? then w.keys.(accounts := w.keys.accounts - {previous.value}) else w.keys))
       case _ => None)
    case SetCurrent(k) =>
      (match PhaseOf(w, k)
       case Cleared(account, token) =>
         Some(Enter(w, k, Written(account, token))
              .(keys := w.keys.(current := w.keys.current[account := token]),
                written := w.written + [(account, token)]))
       case _ => None)
    case SetAccount(k) =>
      (match PhaseOf(w, k)
       case Written(account, token) =>
         Some(Enter(w, k, Idle).(keys := w.keys.(accounts := w.keys.accounts[token := account])))
       case _ => None)
    case RunScript(token) =>
      (match Consume(w.keys, token)
       case (keys, Some(account)) => Some(w.(keys := keys, consumed := w.consumed + [(account, token)]))
       case (_, None) => Some(w))
    case ExpireCurrent(account) => Some(w.(keys := w.keys.(current := w.keys.current - {account})))
    case ExpireToken(token) => Some(w.(keys := w.keys.(accounts := w.keys.accounts - {token})))
    case Crash(k) => Some(Enter(w, k, Idle))
  }

  predicate Initial(w: World) {
    w.keys == Keys(map[], map[]) && w.phases == map[] && w.written == [] && w.consumed == []
  }

  ghost predicate Execution(states: seq<World>, steps: seq<Step>) {
    && |states| == |steps| + 1
    && Initial(states[0])
    && forall i :: 0 <= i < |steps| ==> Next(states[i], steps[i]) == Some(states[i + 1])
  }

  // ---- Safety ----

  /** The last write of a current token for the account. */
  function LastWritten(written: seq<(nat, nat)>, account: nat): Option<nat> {
    if written == [] then None
    else if written[|written| - 1].0 == account then Some(written[|written| - 1].1)
    else LastWritten(written[..|written| - 1], account)
  }

  predicate DistinctTokens(s: seq<(nat, nat)>) {
    forall i, j :: 0 <= i < |s| && 0 <= j < |s| && i != j ==> s[i].1 != s[j].1
  }

  predicate Mentions(s: seq<(nat, nat)>, token: nat) {
    exists i :: 0 <= i < |s| && s[i].1 == token
  }

  /** A token in the making is new: not consumed, without an account key, and written at
      most by its own issuer. */
  ghost predicate PhaseSound(w: World, p: Phase) {
    !p.Idle? ==>
      && p.token < w.nextToken && p.token !in w.keys.accounts && !Mentions(w.consumed, p.token)
      && (if p.Written? then (p.account, p.token) in w.written else !Mentions(w.written, p.token))
  }

  predicate PhasesApart(p: Phase, q: Phase) {
    !p.Idle? && !q.Idle? ==> p.token != q.token
  }

  ghost predicate Sound(w: World) {
    && DistinctTokens(w.written) && DistinctTokens(w.consumed)
    && (forall i :: 0 <= i < |w.written| ==> w.written[i].1 < w.nextToken)
    && (forall t :: t in w.keys.accounts ==> (w.keys.accounts[t], t) in w.written && !Mentions(w.consumed, t))
    && (forall a :: a in w.keys.current ==> LastWritten(w.written, a) == Some(w.keys.current[a]))
    && (forall e :: e in w.consumed ==> e in w.written)
    && (forall k: nat :: PhaseSound(w, PhaseOf(w, k)))
    && (forall j: nat, k: nat :: j != k ==> PhasesApart(PhaseOf(w, j), PhaseOf(w, k)))
  }

  predicate Touches(s: Step, k: nat) {
    match s
    case RunScript(_) => false
    case ExpireCurrent(_) => false
    case ExpireToken(_) => false
    case _ => s.issuer == k
  }

  lemma OthersKeepTheirPhase(w: World, s: Step, k: nat)
    requires Next(w, s).Some? && !Touches(s, k)
    ensures PhaseOf(Next(w, s).value, k) == PhaseOf(w, k)
  {
  }

  /** What one step adds to the histories. */
  lemma HistoriesGrow(w: World, s: Step)
    requires Next(w, s).Some?
    ensures var v := Next(w, s).value;
            && (v.written == w.written
                || (s.SetCurrent? && PhaseOf(w, s.issuer).Cleared?
                    && v.written == w.written + [(PhaseOf(w, s.issuer).account, PhaseOf(w, s.issuer).token)]))
            && (v.consumed == w.consumed
                || (s.RunScript? && exists account :: Consumable(w.keys, account, s.token)
                                      && v.consumed == w.consumed + [(account, s.token)]))
            && w.nextToken <= v.nextToken
  {
  }

  lemma MentionsMore(s: seq<(nat, nat)>, e: (nat, nat), token: nat)
    ensures Mentions(s + [e], token) <==> Mentions(s, token) || e.1 == token
  {
    if Mentions(s, token) {
      var i :| 0 <= i < |s| && s[i].1 == token;
      assert (s + [e])[i].1 == token;
    }
    assert (s + [e])[|s|] == e;
    if Mentions(s + [e], token) {
      var i :| 0 <= i < |s + [e]| && (s + [e])[i].1 == token;
      assert i < |s| ==> s[i].1 == token;
    }
  }

  lemma NewTokensAreNew(w: World)
    requires Sound(w)
    ensures w.nextToken !in w.keys.accounts && !Mentions(w.written, w.nextToken) && !Mentions(w.consumed, w.nextToken)
  {
    forall e | e in w.written ensures e.1 < w.nextToken {
      var i :| 0 <= i < |w.written| && w.written[i] == e;
    }
    forall i | 0 <= i < |w.consumed| ensures w.consumed[i].1 != w.nextToken {
      assert w.consumed[i] in w.consumed;
    }
  }

  lemma PhaseStaysSound(w: World, s: Step, k: nat)
    requires Sound(w) && Next(w, s).Some?
    ensures PhaseSound(Next(w, s).value, PhaseOf(Next(w, s).value, k))
  {
    var v := Next(w, s).value;
    var p := PhaseOf(v, k);
    HistoriesGrow(w, s);
    assert PhaseSound(w, PhaseOf(w, k));
    if !Touches(s, k) {
      OthersKeepTheirPhase(w, s, k);
      if !p.Idle? {
        if s.SetCurrent? || s.SetAccount? {
          assert PhasesApart(PhaseOf(w, k), PhaseOf(w, s.issuer));
        }
        if s.SetCurrent? {
          MentionsMore(w.written, (PhaseOf(w, s.issuer).account, PhaseOf(w, s.issuer).token), p.token);
        }
        if v.consumed != w.consumed {
          MentionsMore(w.consumed, v.consumed[|w.consumed|], p.token);
        }
      }
    } else if s.GetPrevious? {
      NewTokensAreNew(w);
    }
  }

  lemma PhasesStayApart(w: World, s: Step, j: nat, k: nat)
    requires Sound(w) && Next(w, s).Some? && j != k
    ensures PhasesApart(PhaseOf(Next(w, s).value, j), PhaseOf(Next(w, s).value, k))
  {
    assert PhasesApart(PhaseOf(w, j), PhaseOf(w, k));
    assert PhaseSound(w, PhaseOf(w, j)) && PhaseSound(w, PhaseOf(w, k));
    if !Touches(s, j) {
      OthersKeepTheirPhase(w, s, j);
    }
    if !Touches(s, k) {
      OthersKeepTheirPhase(w, s, k);
    }
  }

  lemma KeysStaySound(w: World, s: Step)
    requires Sound(w) && Next(w, s).Some?
    ensures var v := Next(w, s).value;
            && (forall t :: t in v.keys.accounts ==> (v.keys.accounts[t], t) in v.written && !Mentions(v.consumed, t))
            && (forall a :: a in v.keys.current ==> LastWritten(v.written, a) == Some(v.keys.current[a]))
  {
  }

  lemma HistoriesStaySound(w: World, s: Step)
    requires Sound(w) && Next(w, s).Some?
    ensures var v := Next(w, s).value;
            && DistinctTokens(v.written) && DistinctTokens(v.consumed)
            && (forall i :: 0 <= i < |v.written| ==> v.written[i].1 < v.nextToken)
            && (forall e :: e in v.consumed ==> e in v.written)
  {
    var v := Next(w, s).value;
    HistoriesGrow(w, s);
    if s.SetCurrent? {
      assert PhaseSound(w, PhaseOf(w, s.issuer));
      assert forall i :: 0 <= i < |w.written| ==> w.written[i].1 != PhaseOf(w, s.issuer).token;
    }
    if v.consumed != w.consumed {
      assert !Mentions(w.consumed, s.token);
      assert forall i :: 0 <= i < |w.consumed| ==> w.consumed[i].1 != s.token;
    }
  }

  lemma SoundStep(w: World, s: Step)
    requires Sound(w) && Next(w, s).Some?
    ensures Sound(Next(w, s).value)
  {
    var v := Next(w, s).value;
    KeysStaySound(w, s);
    HistoriesStaySound(w, s);
    forall k: nat ensures PhaseSound(v, PhaseOf(v, k)) {
      PhaseStaysSound(w, s, k);
    }
    forall j: nat, k: nat | j != k ensures PhasesApart(PhaseOf(v, j), PhaseOf(v, k)) {
      PhasesStayApart(w, s, j, k);
    }
  }

  lemma {:induction false} AlwaysSound(states: seq<World>, steps: seq<Step>, i: nat)
    requires Execution(states, steps) && i < |states|
    ensures Sound(states[i])
  {
    if i == 0 {
      forall k: nat ensures PhaseOf(states[0], k).Idle? {}
    } else {
      AlwaysSound(states, steps, i - 1);
      assert Next(states[i - 1], steps[i - 1]) == Some(states[i]);
      SoundStep(states[i - 1], steps[i - 1]);
    }
  }

  /** In every interleaving, with keys expiring and issuers crashing at will, the only token
      that can be consumed for an account is the one whose issue last wrote its current
      token, and it has not been consumed before. */
  lemma OnlyTheLastTokenIsConsumable(states: seq<World>, steps: seq<Step>, i: nat, account: nat, token: nat)
    requires Execution(states, steps) && i < |states| && Consumable(states[i].keys, account, token)
    ensures LastWritten(states[i].written, account) == Some(token)
    ensures forall other :: Consumable(states[i].keys, account, other) ==> other == token
    ensures !Mentions(states[i].consumed, token)
  {
    AlwaysSound(states, steps, i);
  }

  /** In every interleaving each token is consumed at most once, and for the account it was
      issued for. */
  lemma ConsumedAtMostOnce(states: seq<World>, steps: seq<Step>, i: nat, a: nat, b: nat)
    requires Execution(states, steps) && i < |states|
    requires a < |states[i].consumed| && b < |states[i].consumed| && states[i].consumed[a].1 == states[i].consumed[b].1
    ensures a == b && states[i].consumed[a] in states[i].written
  {
    AlwaysSound(states, steps, i);
  }

  lemma {:induction false} HistoriesAreKept(states: seq<World>, steps: seq<Step>, i: nat, j: nat)
    requires Execution(states, steps) && i <= j < |states|
    ensures states[i].written <= states[j].written && states[i].consumed <= states[j].consumed
    decreases j
  {
    if i == j {
    } else {
      HistoriesAreKept(states, steps, i, j - 1);
      assert Next(states[j - 1], steps[j - 1]) == Some(states[j]);
      HistoriesGrow(states[j - 1], steps[j - 1]);
    }
  }

  lemma {:induction false} LastWrittenIsLast(written: seq<(nat, nat)>, i: nat, account: nat)
    requires i < |written| && written[i].0 == account
    ensures LastWritten(written, account).Some?
    ensures exists j :: i <= j < |written| && written[j] == (account, LastWritten(written, account).value)
  {
    var last := |written| - 1;
    if written[last].0 == account {
      assert written[last] == (account, LastWritten(written, account).value);
    } else {
      LastWrittenIsLast(written[..last], i, account);
    }
  }

  /** A superseded token is dead for good: once a later issue has written the account's
      current token, no state from then on accepts the earlier one. */
  lemma SupersededTokensAreDead(states: seq<World>, steps: seq<Step>, i: nat, j: nat, early: nat, late: nat)
    requires Execution(states, steps) && i <= j < |states|
    requires early < late < |states[i].written| && states[i].written[early].0 == states[i].written[late].0
    ensures var (account, token) := states[i].written[early]; !Consumable(states[j].keys, account, token)
  {
    AlwaysSound(states, steps, j);
    HistoriesAreKept(states, steps, i, j);
    var (account, token) := states[i].written[early];
    assert states[j].written[early] == (account, token);
    LastWrittenIsLast(states[j].written, late, account);
  }

  // ---- One issuer, one consumer ----

  class OneTimeTokens {
    var current: map<nat, nat>
    var accounts: map<nat, nat>

    constructor ()
      ensures Contents() == Keys(map[], map[])
    {
      current, accounts := map[], map[];
    }

    function Contents(): Keys
      reads this
    {
      Keys(current, accounts)
    }

    method IssueToken(account: nat, token: nat)
      modifies this
      ensures Contents() == Issue(old(Contents()), account, token)
    {
      var previous := if account in current then Some(current[account]) else None;
      if previous.Some? {
        accounts := accounts - {previous.value};
      }
      current := current[account := token];
      accounts := accounts[token := account];
    }

    method ConsumeToken(token: nat) returns (r: Option<nat>)
      modifies this
      ensures (Contents(), r) == Consume(old(Contents()), token)
    {
      if token !in accounts {
        return None;
      }
      var account := accounts[token];
      if account !in current || current[account] != token {
        return None;
      }
      accounts := accounts - {token};
      current := current - {account};
      r := Some(account);
    }
  }

  /** In every reachable state the next token is unused, and an issuer's four commands, left
      alone, are steps of the protocol with the effect of an issue. */
  lemma UndisturbedIssue(w: World, k: nat, account: nat)
    requires Sound(w) && PhaseOf(w, k).Idle?
    ensures Unused(w.keys, w.nextToken)
    ensures var s1 := Next(w, GetPrevious(k, account));
            && s1.Some?
            && var s2 := Next(s1.value, DeletePrevious(k));
               && s2.Some?
               && var s3 := Next(s2.value, SetCurrent(k));
                  && s3.Some?
                  && var s4 := Next(s3.value, SetAccount(k));
                     s4.Some? && s4.value.keys == Issue(w.keys, account, w.nextToken)
  {
    NewTokensAreNew(w);
    forall a | a in w.keys.current
      ensures w.keys.current[a] != w.nextToken
              && (w.keys.current[a] in w.keys.accounts ==> w.keys.accounts[w.keys.current[a]] == a)
    {
      LastWrittenIsWritten(w.written, a);
    }
  }

  lemma {:induction false} LastWrittenIsWritten(written: seq<(nat, nat)>, account: nat)
    requires LastWritten(written, account).Some?
    ensures (account, LastWritten(written, account).value) in written
  {
    var last := |written| - 1;
    if written[last].0 == account {
      assert written[last] == (account, LastWritten(written, account).value);
    } else {
      LastWrittenIsWritten(written[..last], account);
    }
  }
}
