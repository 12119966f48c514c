/** Runs of the outbox: messages are enqueued and relays drain the table, over and over. */
module OutboxRuns {
  import opened Domain
  import opened Outbox
  import opened OutboxRelay
  import opened NotificationEntity

  // ---- Runs of a table ----

  datatype Queue = Queue(rows: Table, nextId: nat)

  /** A committed insertion, a pass of the relay, or one iteration of another relay, which
      takes some due row (not always the first: it skips rows that are locked).  Passes of
      one iteration let the iterations of several relays alternate. */
  datatype Event =
    | Enqueue(entry: Entry, at: int)
    | Relay(its: seq<Iteration>)
    | Elsewhere(id: nat, it: Iteration)

  ghost function Step(cfg: Config, q: Queue, e: Event): Queue {
    match e
    case Enqueue(entry, at) => Queue(q.rows[q.nextId := NewRow(entry, at)], q.nextId + 1)
    case Relay(its) => q.(rows := RunPass(cfg, q.rows, its).rows)
    case Elsewhere(id, it) =>
      if id in q.rows && Due(q.rows[id], it.claimAt)
      then q.(rows := q.rows[id := Handle(cfg, q.rows[id], it.markAt, it.failure)]) else q
  }

  /** The table after some events, starting empty. */
  ghost function After(cfg: Config, events: seq<Event>): Queue
    decreases |events|
  {
    if events == [] then Queue(map[], 0)
    else Step(cfg, After(cfg, events[..|events| - 1]), events[|events| - 1])
  }

  /** The messages enqueued, with the instant of each; the k-th one gets the id k. */
  function Enqueued(events: seq<Event>): seq<(Entry, int)>
    decreases |events|
  {
    if events == [] then [] else
    var front, last := events[..|events| - 1], events[|events| - 1];
    Enqueued(front) + if last.Enqueue? then [(last.entry, last.at)] else []
  }

  predicate OnTime(it: Iteration) {
    it.claimAt <= it.markAt
  }

  predicate AllOnTime(its: seq<Iteration>) {
    forall it :: it in its ==> OnTime(it)
  }

  /** The clock does not run backwards within an iteration. */
  predicate Punctual(e: Event) {
    && (e.Relay? ==> AllOnTime(e.its))
    && (e.Elsewhere? ==> OnTime(e.it))
  }

  ghost predicate AllPunctual(events: seq<Event>) {
    forall e :: e in events ==> Punctual(e)
  }

  // ---- The life of one row ----

  /** The row after the iterations that took it, or None when it was not due at one of
      them.  A crash before the mark rolls the iteration back and leaves no trace here. */
  function Live(cfg: Config, r: Row, life: seq<Iteration>): Option<Row>
    decreases |life|
  {
    if life == [] then Some(r)
    else if !Due(r, life[0].claimAt) then None
    else Live(cfg, Handle(cfg, r, life[0].markAt, life[0].failure), life[1..])
  }

  /** The iterations of a pass that take a row. */
  ghost function LifeInPass(cfg: Config, rows: Table, its: seq<Iteration>, id: nat): seq<Iteration>
    decreases |its|
  {
    if its == [] || DueIds(rows, its[0].claimAt) == {} then [] else
    NextExists(rows, its[0].claimAt);
    var i :| IsNext(rows, its[0].claimAt, i);
    (if i == id then [its[0]] else [])
    + LifeInPass(cfg, rows[i := Handle(cfg, rows[i], its[0].markAt, its[0].failure)], its[1..], id)
  }

  ghost function LifeInStep(cfg: Config, q: Queue, e: Event, id: nat): seq<Iteration> {
    match e
    case Enqueue(_, _) => []
    case Relay(its) => if id in q.rows then LifeInPass(cfg, q.rows, its, id) else []
    case Elsewhere(other, it) => if other == id && id in q.rows && Due(q.rows[id], it.claimAt) then [it] else []
  }

  /** All iterations of a run that take the row. */
  ghost function LifeOf(cfg: Config, events: seq<Event>, id: nat): seq<Iteration>
    decreases |events|
  {
    if events == [] then [] else
    var front := events[..|events| - 1];
    LifeOf(cfg, front, id) + LifeInStep(cfg, After(cfg, front), events[|events| - 1], id)
  }

  lemma LifeInPassStep(cfg: Config, rows: Table, its: seq<Iteration>, i: nat, id: nat)
    requires its != [] && IsNext(rows, its[0].claimAt, i)
    ensures LifeInPass(cfg, rows, its, id)
            == (if i == id then [its[0]] else [])
               + LifeInPass(cfg, rows[i := Handle(cfg, rows[i], its[0].markAt, its[0].failure)], its[1..], id)
  {
    forall j | IsNext(rows, its[0].claimAt, j) ensures j == i {
      NextIsUnique(rows, its[0].claimAt, i, j);
    }
  }

  lemma {:induction false} PassesKeepTheIds(cfg: Config, rows: Table, its: seq<Iteration>)
    ensures RunPass(cfg, rows, its).rows.Keys == rows.Keys
    decreases |its|
  {
    if its == [] || DueIds(rows, its[0].claimAt) == {} {
    } else {
      NextExists(rows, its[0].claimAt);
      var i :| IsNext(rows, its[0].claimAt, i);
      PassStep(cfg, rows, its, i);
      PassesKeepTheIds(cfg, rows[i := Handle(cfg, rows[i], its[0].markAt, its[0].failure)], its[1..]);
    }
  }

  /** A pass does to every row of the table what the iterations that take it do, and it
      handles exactly the rows that some iteration takes. */
  lemma {:induction false} PassesAreLives(cfg: Config, rows: Table, its: seq<Iteration>, id: nat)
    requires id in rows
    ensures id in RunPass(cfg, rows, its).rows
    ensures Live(cfg, rows[id], LifeInPass(cfg, rows, its, id)) == Some(RunPass(cfg, rows, its).rows[id])
    ensures id in RunPass(cfg, rows, its).handled <==> LifeInPass(cfg, rows, its, id) != []
    ensures AllOnTime(its) ==> AllOnTime(LifeInPass(cfg, rows, its, id))
    decreases |its|
  {
    if its == [] || DueIds(rows, its[0].claimAt) == {} {
    } else {
      NextExists(rows, its[0].claimAt);
      var i :| IsNext(rows, its[0].claimAt, i);
      var next := rows[i := Handle(cfg, rows[i], its[0].markAt, its[0].failure)];
      PassStep(cfg, rows, its, i);
      LifeInPassStep(cfg, rows, its, i, id);
      PassesAreLives(cfg, next, its[1..], id);
      if i == id {
        assert ([its[0]] + LifeInPass(cfg, next, its[1..], id))[1..] == LifeInPass(cfg, next, its[1..], id);
      } else {
        assert [] + LifeInPass(cfg, next, its[1..], id) == LifeInPass(cfg, next, its[1..], id);
      }
    }
  }

  lemma StepsAreLives(cfg: Config, q: Queue, e: Event, id: nat)
    requires id in q.rows && id < q.nextId
    ensures var v := Step(cfg, q, e);
            id in v.rows && id < v.nextId && Live(cfg, q.rows[id], LifeInStep(cfg, q, e, id)) == Some(v.rows[id])
    ensures Punctual(e) ==> AllOnTime(LifeInStep(cfg, q, e, id))
  {
    match e
    case Enqueue(_, _) =>
    case Relay(its) => PassesAreLives(cfg, q.rows, its, id);
    case Elsewhere(other, it) => assert [it][1..] == [];
  }

  lemma {:induction false} LivesConcatenate(cfg: Config, r: Row, a: seq<Iteration>, b: seq<Iteration>)
    requires Live(cfg, r, a).Some?
    ensures Live(cfg, r, a + b) == Live(cfg, Live(cfg, r, a).value, b)
    decreases |a|
  {
    if a == [] {
      assert a + b == b;
    } else {
      assert (a + b)[1..] == a[1..] + b;
      LivesConcatenate(cfg, Handle(cfg, r, a[0].markAt, a[0].failure), a[1..], b);
    }
  }

  /** The row a message is stored as. */
  function Origin(events: seq<Event>, id: nat): Row
    requires id < |Enqueued(events)|
  {
    NewRow(Enqueued(events)[id].0, Enqueued(events)[id].1)
  }

  lemma {:induction false} IdsAreHandedOut(cfg: Config, events: seq<Event>)
    ensures After(cfg, events).nextId == |Enqueued(events)|
    ensures forall id: nat :: id in After(cfg, events).rows <==> id < |Enqueued(events)|
    decreases |events|
  {
    if events == [] {
    } else {
      var front, last := events[..|events| - 1], events[|events| - 1];
      IdsAreHandedOut(cfg, front);
      if last.Relay? {
        PassesKeepTheIds(cfg, After(cfg, front).rows, last.its);
      }
    }
  }

  /** In every run, the row of every message is its original row after the iterations that
      took it. */
  lemma {:induction false} RowsAreLives(cfg: Config, events: seq<Event>, id: nat)
    requires id < |Enqueued(events)|
    ensures id in After(cfg, events).rows
    ensures Live(cfg, Origin(events, id), LifeOf(cfg, events, id)) == Some(After(cfg, events).rows[id])
    ensures AllPunctual(events) ==> AllOnTime(LifeOf(cfg, events, id))
    decreases |events|
  {
    var front, last := events[..|events| - 1], events[|events| - 1];
    IdsAreHandedOut(cfg, events);
    IdsAreHandedOut(cfg, front);
    assert AllPunctual(events) ==> AllPunctual(front) && Punctual(last);
    if id < |Enqueued(front)| {
      RowsAreLives(cfg, front, id);
      StepsAreLives(cfg, After(cfg, front), last, id);
      LivesConcatenate(cfg, Origin(front, id), LifeOf(cfg, front, id), LifeInStep(cfg, After(cfg, front), last, id));
    } else {
      NoLifeBefore(cfg, front, id);
    }
  }

  lemma {:induction false} NoLifeBefore(cfg: Config, events: seq<Event>, id: nat)
    requires id >= |Enqueued(events)|
    ensures LifeOf(cfg, events, id) == []
    decreases |events|
  {
    if events == [] {
    } else {
      NoLifeBefore(cfg, events[..|events| - 1], id);
      IdsAreHandedOut(cfg, events[..|events| - 1]);
    }
  }

  /** Between any two states of a run, a row goes through a life of its own. */
  lemma {:induction false} LaterRowsAreLives(cfg: Config, events: seq<Event>, a: nat, id: nat)
      returns (life: seq<Iteration>)
    requires a <= |events| && id in After(cfg, events[..a]).rows
    ensures id in After(cfg, events).rows
    ensures Live(cfg, After(cfg, events[..a]).rows[id], life) == Some(After(cfg, events).rows[id])
    ensures AllPunctual(events) ==> AllOnTime(life)
    decreases |events|
  {
    if a == |events| {
      assert events[..a] == events;
      life := [];
    } else {
      var front, last := events[..|events| - 1], events[|events| - 1];
      assert front[..a] == events[..a];
      IdsAreHandedOut(cfg, front);
      assert AllPunctual(events) ==> AllPunctual(front) && Punctual(last);
      var before := LaterRowsAreLives(cfg, front, a, id);
      StepsAreLives(cfg, After(cfg, front), last, id);
      LivesConcatenate(cfg, After(cfg, events[..a]).rows[id], before, LifeInStep(cfg, After(cfg, front), last, id));
      life := before + LifeInStep(cfg, After(cfg, front), last, id);
    }
  }

  // ---- Counting attempts ----

  /** Never both published and dead-lettered, and dead-lettered exactly when the attempts
      are used up. */
  predicate Counted(cfg: Config, r: Row) {
    && !(r.publishedAt.Some? && r.deadLetteredAt.Some?)
    && (r.deadLetteredAt.Some? <==> r.attempts > 0 && r.attempts >= cfg.maxAttempts)
    && (r.deadLetteredAt.Some? ==> r.attempts == 1 || r.attempts == cfg.maxAttempts)
  }

  lemma {:induction false} LivesAreCounted(cfg: Config, r: Row, life: seq<Iteration>)
    requires Counted(cfg, r) && Live(cfg, r, life).Some?
    ensures var end := Live(cfg, r, life).value;
            && Counted(cfg, end) && end.attempts >= r.attempts
            && (end.kind, end.aggregateId, end.priority) == (r.kind, r.aggregateId, r.priority)
    decreases |life|
  {
    if life == [] {
    } else {
      LivesAreCounted(cfg, Handle(cfg, r, life[0].markAt, life[0].failure), life[1..]);
    }
  }

  /** In every state of every run, whatever the settings and the clock: no message is both
      published and dead-lettered, each is dead-lettered exactly when its attempts are used
      up, and each is still the message that was enqueued. */
  lemma EveryMessageSettles(cfg: Config, events: seq<Event>, id: nat)
    requires id < |Enqueued(events)|
    ensures id in After(cfg, events).rows
    ensures var r, e := After(cfg, events).rows[id], Enqueued(events)[id].0;
            Counted(cfg, r) && (r.kind, r.aggregateId, r.priority) == (e.kind, e.aggregateId, e.priority)
  {
    RowsAreLives(cfg, events, id);
    LivesAreCounted(cfg, Origin(events, id), LifeOf(cfg, events, id));
  }

  // ---- What a row tells of its message ----

  /** The row of a message that no iteration has taken yet. */
  predicate Untouched(r: Row, e: Entry, at: int) {
    && (r.kind, r.aggregateId, r.priority) == (e.kind, e.aggregateId, e.priority)
    && r.availableAt == (if e.availableAt.Some? then e.availableAt.value else at)
    && r.attempts == 0 && r.publishedAt == None && r.deadLetteredAt == None && r.lastError == None
  }

  /** The error is kept up to 2000 characters. */
  predicate Notes(r: Row, error: string) {
    r.lastError.Some? && r.lastError.value <= error && |r.lastError.value| == Min(|error|, 2000)
  }

  /** The row right after the k-th iteration that took it, which found `before`: published, or
      failed for the k-th time.  A failure is tried again after base * 2^(k-1) seconds, but no
      later than after the cap, unless it was the last attempt, which gives the message up. */
  predicate TakenFor(cfg: Config, before: Row, r: Row, k: nat, it: Iteration)
    requires k >= 1
  {
    && (r.kind, r.aggregateId, r.priority) == (before.kind, before.aggregateId, before.priority)
    && match it.failure
       case None =>
         && r.publishedAt == Some(it.markAt) && r.deadLetteredAt == None && r.lastError == None
         && r.attempts == k - 1 && r.availableAt == before.availableAt
       case Some(error) =>
         && r.publishedAt == None && Notes(r, error) && r.attempts == k
         && if k >= cfg.maxAttempts
            then r.deadLetteredAt == Some(it.markAt) && r.availableAt == before.availableAt
            else
              && r.deadLetteredAt == None
              && r.availableAt
                 == it.markAt + Min(cfg.baseSeconds * Pow2(k - 1), cfg.maxSeconds) * SECOND
  }

  /** All iterations but the last one of a life have failed. */
  lemma {:induction false} LivesAreRetries(cfg: Config, r: Row, life: seq<Iteration>, k: nat)
    requires Live(cfg, r, life).Some? && k < |life|
    ensures Live(cfg, r, life[..k]).Some? && Live(cfg, r, life[..k + 1]).Some?
    ensures var before := Live(cfg, r, life[..k]).value;
            && before.attempts == r.attempts + k && Due(before, life[k].claimAt)
            && Live(cfg, r, life[..k + 1]).value == Handle(cfg, before, life[k].markAt, life[k].failure)
    decreases k
  {
    if k == 0 {
      assert life[..1][1..] == [];
    } else {
      var next := Handle(cfg, r, life[0].markAt, life[0].failure);
      assert life[1..] != [] && next.publishedAt.None?;
      LivesAreRetries(cfg, next, life[1..], k - 1);
      assert life[..k][1..] == life[1..][..k - 1] && life[..k + 1][1..] == life[1..][..k];
    }
  }

  /** The k-th iteration of a life, counted from one: the earlier ones all failed, and it
      leaves the row as it should. */
  predicate Told(cfg: Config, origin: Row, life: seq<Iteration>, k: nat)
    requires 1 <= k <= |life|
  {
    && Live(cfg, origin, life[..k - 1]).Some? && Live(cfg, origin, life[..k]).Some?
    && TakenFor(cfg, Live(cfg, origin, life[..k - 1]).value, Live(cfg, origin, life[..k]).value, k, life[k - 1])
    && (k < |life| ==> life[k - 1].failure.Some?)
  }

  lemma IterationsTell(cfg: Config, origin: Row, life: seq<Iteration>, k: nat)
    requires origin.attempts == 0 && Live(cfg, origin, life).Some? && 1 <= k <= |life|
    ensures Told(cfg, origin, life, k)
  {
    LivesAreRetries(cfg, origin, life, k - 1);
    if k < |life| {
      LivesAreRetries(cfg, origin, life, k);
    }
  }

  /** In every state of every run, the row of a message tells exactly what became of it: it is
      as enqueued until some iteration takes it; and if n have taken it, then the earlier ones
      all failed, and the row is what the last one left: published, due again after its
      backoff, or given up. */
  lemma RowsTellTheirStory(cfg: Config, events: seq<Event>, id: nat)
    requires id < |Enqueued(events)|
    ensures id in After(cfg, events).rows
    ensures Untouched(Origin(events, id), Enqueued(events)[id].0, Enqueued(events)[id].1)
    ensures var origin, life := Origin(events, id), LifeOf(cfg, events, id);
            && Live(cfg, origin, life) == Some(After(cfg, events).rows[id])
            && (life == [] ==> After(cfg, events).rows[id] == origin)
            && forall k :: 1 <= k <= |life| ==> Told(cfg, origin, life, k)
  {
    RowsAreLives(cfg, events, id);
    forall k | 1 <= k <= |LifeOf(cfg, events, id)| ensures Told(cfg, Origin(events, id), LifeOf(cfg, events, id), k) {
      IterationsTell(cfg, Origin(events, id), LifeOf(cfg, events, id), k);
    }
  }

  /** Once a row is published or dead-lettered it stands for the rest of the run, and no
      later pass handles it. */
  lemma SettledRowsStand(cfg: Config, events: seq<Event>, a: nat, id: nat)
    requires a <= |events| && id in After(cfg, events[..a]).rows
    requires var r := After(cfg, events[..a]).rows[id]; r.publishedAt.Some? || r.deadLetteredAt.Some?
    ensures id in After(cfg, events).rows && After(cfg, events).rows[id] == After(cfg, events[..a]).rows[id]
    ensures forall its :: id !in RunPass(cfg, After(cfg, events).rows, its).handled
  {
    var life := LaterRowsAreLives(cfg, events, a, id);
    assert life == [];
    forall its ensures id !in RunPass(cfg, After(cfg, events).rows, its).handled {
      PassesAreLives(cfg, After(cfg, events).rows, its, id);
    }
  }

  // ---- Due times ----

  predicate NonNegativeDelays(cfg: Config) {
    cfg.baseSeconds >= 0 && cfg.maxSeconds >= 0
  }

  /** Due, and if at all published, no earlier than some instant. */
  predicate NotBefore(r: Row, since: int) {
    r.availableAt >= since && (r.publishedAt.Some? ==> r.publishedAt.value >= since)
  }

  lemma {:induction false} LivesMoveForward(cfg: Config, r: Row, life: seq<Iteration>, since: int)
    requires NonNegativeDelays(cfg) && AllOnTime(life) && NotBefore(r, since) && Live(cfg, r, life).Some?
    ensures var end := Live(cfg, r, life).value; NotBefore(end, since) && end.availableAt >= r.availableAt
    decreases |life|
  {
    if life == [] {
    } else {
      DelaySign(cfg, r.attempts);
      assert OnTime(life[0]);
      LivesMoveForward(cfg, Handle(cfg, r, life[0].markAt, life[0].failure), life[1..], since);
    }
  }

  /** In every run, no message is published before the send time it was enqueued with. */
  lemma NeverPublishedEarly(cfg: Config, events: seq<Event>, id: nat)
    requires NonNegativeDelays(cfg) && AllPunctual(events) && id < |Enqueued(events)|
    ensures id in After(cfg, events).rows
    ensures var (entry, at) := Enqueued(events)[id];
            NotBefore(After(cfg, events).rows[id], if entry.availableAt.Some? then entry.availableAt.value else at)
  {
    RowsAreLives(cfg, events, id);
    LivesMoveForward(cfg, Origin(events, id), LifeOf(cfg, events, id), Origin(events, id).availableAt);
  }

  /** Between any two states of a run, no row's due time moves back. */
  lemma DueTimesNeverMoveBack(cfg: Config, events: seq<Event>, a: nat, id: nat)
    requires NonNegativeDelays(cfg) && AllPunctual(events)
    requires a <= |events| && id in After(cfg, events[..a]).rows
    ensures id in After(cfg, events).rows
    ensures After(cfg, events).rows[id].availableAt >= After(cfg, events[..a]).rows[id].availableAt
  {
    var life := LaterRowsAreLives(cfg, events, a, id);
    var r := After(cfg, events[..a]).rows[id];
    var since :=
      if r.publishedAt.Some? && r.publishedAt.value < r.availableAt then r.publishedAt.value else r.availableAt;
    LivesMoveForward(cfg, r, life, since);
  }

  // ---- Waiting ----

  /** Seconds of retry delay that were scheduled along the way. */
  function Waited(cfg: Config, r: Row, life: seq<Iteration>): int
    decreases |life|
  {
    if life == [] then 0 else
    var retried := life[0].failure.Some? && RetryAt(cfg, r, life[0].markAt).Some?;
    (if retried then RetryDelay(cfg, r.attempts) else 0)
    + Waited(cfg, Handle(cfg, r, life[0].markAt, life[0].failure), life[1..])
  }

  /** The delays a row with this many attempts can still be made to wait. */
  function Budget(cfg: Config, attempts: nat): int
    decreases cfg.maxAttempts - attempts
  {
    if attempts + 1 >= cfg.maxAttempts then 0 else RetryDelay(cfg, attempts) + Budget(cfg, attempts + 1)
  }

  lemma {:induction false} BudgetIsExponential(cfg: Config, attempts: nat)
    requires NonNegativeDelays(cfg) && attempts < cfg.maxAttempts
    ensures Budget(cfg, attempts) <= cfg.baseSeconds * (Pow2(cfg.maxAttempts - 1) - Pow2(attempts))
    decreases cfg.maxAttempts - attempts
  {
    if attempts + 1 >= cfg.maxAttempts {
    } else {
      BudgetIsExponential(cfg, attempts + 1);
      Distribute(cfg.baseSeconds, Pow2(attempts), Pow2(cfg.maxAttempts - 1));
    }
  }

  lemma Distribute(b: int, p: int, q: int)
    ensures b * (q - p) == b * p + b * (q - 2 * p)
  {
  }

  lemma {:induction false} BudgetIsLinear(cfg: Config, attempts: nat)
    requires NonNegativeDelays(cfg) && attempts < cfg.maxAttempts
    ensures Budget(cfg, attempts) <= (cfg.maxAttempts - 1 - attempts) * cfg.maxSeconds
    decreases cfg.maxAttempts - attempts
  {
    if attempts + 1 >= cfg.maxAttempts {
    } else {
      BudgetIsLinear(cfg, attempts + 1);
      assert (cfg.maxAttempts - 1 - attempts) * cfg.maxSeconds
          == cfg.maxSeconds + (cfg.maxAttempts - 1 - (attempts + 1)) * cfg.maxSeconds;
    }
  }

  lemma {:induction false} BudgetNonNegative(cfg: Config, attempts: nat)
    requires NonNegativeDelays(cfg)
    ensures Budget(cfg, attempts) >= 0
    decreases cfg.maxAttempts - attempts
  {
    if attempts + 1 >= cfg.maxAttempts {
    } else {
      DelaySign(cfg, attempts);
      BudgetNonNegative(cfg, attempts + 1);
    }
  }

  lemma {:induction false} WaitsWithinBudget(cfg: Config, r: Row, life: seq<Iteration>)
    requires NonNegativeDelays(cfg) && Live(cfg, r, life).Some?
    ensures Waited(cfg, r, life) <= Budget(cfg, r.attempts)
    decreases |life|
  {
    BudgetNonNegative(cfg, r.attempts);
    if life == [] {
    } else {
      var next := Handle(cfg, r, life[0].markAt, life[0].failure);
      WaitsWithinBudget(cfg, next, life[1..]);
      assert life[0].failure.None? || RetryAt(cfg, r, life[0].markAt).None? ==> life[1..] == [];
    }
  }

  /** In every run, the retry delays scheduled for a message total at most
      min(base * (2^(n-1) - 1), (n-1) * cap) seconds, n being the maximal number of
      attempts. */
  lemma TotalWaitIsBounded(cfg: Config, events: seq<Event>, id: nat)
    requires NonNegativeDelays(cfg) && cfg.maxAttempts >= 1 && id < |Enqueued(events)|
    ensures Waited(cfg, Origin(events, id), LifeOf(cfg, events, id))
            <= Min(cfg.baseSeconds * (Pow2(cfg.maxAttempts - 1) - 1), (cfg.maxAttempts - 1) * cfg.maxSeconds)
  {
    RowsAreLives(cfg, events, id);
    WaitsWithinBudget(cfg, Origin(events, id), LifeOf(cfg, events, id));
    BudgetIsExponential(cfg, 0);
    BudgetIsLinear(cfg, 0);
  }

  // ---- The bound is reached ----

  /** A row that is given up in the end has waited for all its retries. */
  lemma {:induction false} GivenUpRowsWaitInFull(cfg: Config, r: Row, life: seq<Iteration>)
    requires r.deadLetteredAt.None? && Live(cfg, r, life).Some? && Live(cfg, r, life).value.deadLetteredAt.Some?
    ensures Waited(cfg, r, life) == Budget(cfg, r.attempts)
    decreases |life|
  {
    var next := Handle(cfg, r, life[0].markAt, life[0].failure);
    if life[0].failure.None? || RetryAt(cfg, r, life[0].markAt).None? {
      assert life[1..] == [];
    } else {
      GivenUpRowsWaitInFull(cfg, next, life[1..]);
    }
  }

  lemma {:induction false} PowGrows(n: nat, m: nat)
    requires n <= m
    ensures Pow2(n) <= Pow2(m)
    decreases m
  {
    if n < m {
      PowGrows(n, m - 1);
      PowPositive(m - 1);
    }
  }

  lemma Scaled(b: int, p: int, q: int)
    requires b >= 0 && p <= q
    ensures b * p <= b * q
  {
  }

  predicate CapNeverBinds(cfg: Config) {
    cfg.maxAttempts >= 2 ==> cfg.baseSeconds * Pow2(cfg.maxAttempts - 2) <= cfg.maxSeconds
  }

  lemma {:induction false} UncappedBudget(cfg: Config, attempts: nat)
    requires NonNegativeDelays(cfg) && CapNeverBinds(cfg) && attempts < cfg.maxAttempts
    ensures Budget(cfg, attempts) == cfg.baseSeconds * (Pow2(cfg.maxAttempts - 1) - Pow2(attempts))
    decreases cfg.maxAttempts - attempts
  {
    if attempts + 1 < cfg.maxAttempts {
      UncappedBudget(cfg, attempts + 1);
      PowGrows(attempts, cfg.maxAttempts - 2);
      Scaled(cfg.baseSeconds, Pow2(attempts), Pow2(cfg.maxAttempts - 2));
      Distribute(cfg.baseSeconds, Pow2(attempts), Pow2(cfg.maxAttempts - 1));
    }
  }

  lemma {:induction false} CappedBudget(cfg: Config, attempts: nat)
    requires NonNegativeDelays(cfg) && cfg.maxSeconds <= cfg.baseSeconds && attempts < cfg.maxAttempts
    ensures Budget(cfg, attempts) == (cfg.maxAttempts - 1 - attempts) * cfg.maxSeconds
    decreases cfg.maxAttempts - attempts
  {
    if attempts + 1 < cfg.maxAttempts {
      CappedBudget(cfg, attempts + 1);
      PowPositive(attempts);
      Scaled(cfg.baseSeconds, 1, Pow2(attempts));
      assert (cfg.maxAttempts - 1 - attempts) * cfg.maxSeconds
          == cfg.maxSeconds + (cfg.maxAttempts - 1 - (attempts + 1)) * cfg.maxSeconds;
    }
  }

  /** In every run, a message that is given up has waited for as long as the bound says, when
      the cap never binds, and likewise when it always does. */
  lemma GivenUpMessagesReachTheBound(cfg: Config, events: seq<Event>, id: nat)
    requires NonNegativeDelays(cfg) && cfg.maxAttempts >= 1 && id < |Enqueued(events)|
    requires id in After(cfg, events).rows && After(cfg, events).rows[id].deadLetteredAt.Some?
    ensures var waited := Waited(cfg, Origin(events, id), LifeOf(cfg, events, id));
            && (CapNeverBinds(cfg) ==> waited == cfg.baseSeconds * (Pow2(cfg.maxAttempts - 1) - 1))
            && (cfg.maxSeconds <= cfg.baseSeconds ==> waited == (cfg.maxAttempts - 1) * cfg.maxSeconds)
  {
    RowsAreLives(cfg, events, id);
    GivenUpRowsWaitInFull(cfg, Origin(events, id), LifeOf(cfg, events, id));
    FullBudget(cfg);
  }

  lemma FullBudget(cfg: Config)
    requires NonNegativeDelays(cfg) && cfg.maxAttempts >= 1
    ensures CapNeverBinds(cfg) ==> Budget(cfg, 0) == cfg.baseSeconds * (Pow2(cfg.maxAttempts - 1) - 1)
    ensures cfg.maxSeconds <= cfg.baseSeconds ==> Budget(cfg, 0) == (cfg.maxAttempts - 1) * cfg.maxSeconds
  {
    if CapNeverBinds(cfg) {
      UncappedBudget(cfg, 0);
    }
    if cfg.maxSeconds <= cfg.baseSeconds {
      CappedBudget(cfg, 0);
    }
  }

  /** And every waiting message of every run can still come to that. */
  lemma {:induction false} WaitingMessagesCanBeGivenUp(cfg: Config, events: seq<Event>, id: nat, error: string)
      returns (more: seq<Event>)
    requires id in After(cfg, events).rows && Waiting(After(cfg, events).rows[id])
    ensures events <= more && (AllPunctual(events) ==> AllPunctual(more))
    ensures id in After(cfg, more).rows && After(cfg, more).rows[id].deadLetteredAt.Some?
    decreases cfg.maxAttempts - After(cfg, events).rows[id].attempts
  {
    var r := After(cfg, events).rows[id];
    var failing := Elsewhere(id, Iteration(r.availableAt, r.availableAt, Some(error)));
    more := events + [failing];
    assert more[..|more| - 1] == events;
    if r.attempts + 1 < cfg.maxAttempts {
      var longer := WaitingMessagesCanBeGivenUp(cfg, more, id, error);
      more := longer;
    }
  }

  // ---- Who goes first ----

  /** A message about something that the client or the plan calls CRITICAL. */
  ghost predicate ForCritical(e: Entry) {
    || (exists id :: e == IntakeEntry(id, true))
    || (exists n: Notification :: n.category.Critical? && e == DispatchEntry(n))
  }

  ghost predicate ForOrdinary(e: Entry) {
    || (exists id :: e == IntakeEntry(id, false))
    || (exists n: Notification :: !n.category.Critical? && e == DispatchEntry(n))
  }

  /** In every run, a message about something CRITICAL that is due goes before any ordinary
      one, however long that one has been waiting; and among messages of one sort, the one
      that is due earlier goes first. */
  lemma CriticalGoesFirst(cfg: Config, events: seq<Event>, now: int, i: nat, j: nat)
    requires i < |Enqueued(events)| && j < |Enqueued(events)| && IsNext(After(cfg, events).rows, now, i)
    requires j in After(cfg, events).rows
    requires var r := After(cfg, events).rows[j]; Waiting(r) && r.availableAt <= now
    ensures var (a, _), (b, _) := Enqueued(events)[i], Enqueued(events)[j];
            && !(ForOrdinary(a) && ForCritical(b))
            && ((ForCritical(a) && ForCritical(b)) || (ForOrdinary(a) && ForOrdinary(b)) ==>
                  After(cfg, events).rows[i].availableAt <= After(cfg, events).rows[j].availableAt)
  {
    EveryMessageSettles(cfg, events, i);
    EveryMessageSettles(cfg, events, j);
    assert j in DueIds(After(cfg, events).rows, now);
  }
}
