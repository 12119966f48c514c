/** Draining the outbox: one pass of the relay over the table. */
module OutboxRelay {
  import opened Domain
  import opened Outbox

  datatype Config = Config(batchSize: int, maxAttempts: int, baseSeconds: int, maxSeconds: int)

  function Pow2(n: nat): nat {
    if n == 0 then 1 else 2 * Pow2(n - 1)
  }

  /** Bounded exponential delay, in seconds. */
  function RetryDelay(cfg: Config, previousAttempts: nat): int {
    Min(cfg.baseSeconds * Pow2(previousAttempts), cfg.maxSeconds)
  }

  /** The delay starts at the base and doubles from attempt to attempt, up to the cap.  (A
      negative cap would be doubled as well.) */
  lemma DelaysDouble(cfg: Config, previousAttempts: nat)
    ensures RetryDelay(cfg, 0) == Min(cfg.baseSeconds, cfg.maxSeconds)
    ensures RetryDelay(cfg, previousAttempts + 1) == Min(2 * RetryDelay(cfg, previousAttempts), cfg.maxSeconds)
            <==> cfg.maxSeconds >= 0 || cfg.baseSeconds * Pow2(previousAttempts) <= cfg.maxSeconds
  {
    var p := Pow2(previousAttempts);
    PowPositive(previousAttempts);
    assert cfg.baseSeconds * (2 * p) == 2 * (cfg.baseSeconds * p);
  }

  /** When a failing row is tried again, or None when it has used up its attempts. */
  function RetryAt(cfg: Config, r: Row, now: int): Option<int> {
    if r.attempts + 1 >= cfg.maxAttempts then None else Some(now + RetryDelay(cfg, r.attempts) * SECOND)
  }

  /** What a pass does to a row it claimed: `failure` is the error of the publish, if any. */
  function Handle(cfg: Config, r: Row, now: int, failure: Option<string>): Row {
    if failure.None? then Published(r, now) else Failed(r, now, failure.value, RetryAt(cfg, r, now))
  }

  /** What one iteration meets: its two clock readings, and the error of its publish. */
  datatype Iteration = Iteration(claimAt: int, markAt: int, failure: Option<string>)

  datatype Pass = Pass(rows: Table, handled: seq<nat>, published: nat)

  /** A pass of the given iterations; it stops early when nothing is due. */
  ghost function RunPass(cfg: Config, rows: Table, its: seq<Iteration>): Pass
    decreases |its|
  {
    if its == [] || DueIds(rows, its[0].claimAt) == {} then Pass(rows, [], 0) else
    NextExists(rows, its[0].claimAt);
    var i :| IsNext(rows, its[0].claimAt, i);
    var rest := RunPass(cfg, rows[i := Handle(cfg, rows[i], its[0].markAt, its[0].failure)], its[1..]);
    Pass(rest.rows, [i] + rest.handled, rest.published + if its[0].failure.None? then 1 else 0)
  }

  /** One iteration of a pass, and the rest of it. */
  lemma PassStep(cfg: Config, rows: Table, its: seq<Iteration>, i: nat)
    requires its != [] && IsNext(rows, its[0].claimAt, i)
    ensures var rest := RunPass(cfg, rows[i := Handle(cfg, rows[i], its[0].markAt, its[0].failure)], its[1..]);
            RunPass(cfg, rows, its)
            == Pass(rest.rows, [i] + rest.handled, rest.published + if its[0].failure.None? then 1 else 0)
  {
  }

  class OutboxRelayService {
    const outbox: OutboxTable
    const cfg: Config

    constructor (outbox: OutboxTable, cfg: Config)
      ensures this.outbox == outbox && this.cfg == cfg
    {
      this.outbox := outbox;
      this.cfg := cfg;
    }

    /** One transaction of a pass: claim the next due row, publish it, and mark it.
        Returns whether it was published, or None when nothing is due. */
    method RelayNext(it: Iteration) returns (r: Option<bool>)
      modifies outbox
      ensures r.None? ==> DueIds(old(outbox.rows), it.claimAt) == {} && outbox.rows == old(outbox.rows)
      ensures r.Some? ==> r.value == it.failure.None?
      ensures r.Some? ==> exists i :: IsNext(old(outbox.rows), it.claimAt, i)
                            && outbox.rows
                               == old(outbox.rows)[i := Handle(cfg, old(outbox.rows)[i], it.markAt, it.failure)]
    {
      var message := outbox.ClaimNext(it.claimAt);
      if message.None? {
        return None;
      }
      var id := message.value;
      if it.failure.Some? {
        var attempts := outbox.rows[id].attempts;
        var retryAt := if attempts + 1 >= cfg.maxAttempts then None
                       else Some(it.markAt + RetryDelay(cfg, attempts) * SECOND);
        outbox.MarkFailed(id, it.markAt, it.failure.value, retryAt);
      } else {
        outbox.MarkPublished(id, it.markAt);
      }
      r := Some(it.failure.None?);
    }

    /** One pass, up to the batch size; returns the number of successful publishes. */
    method RelayAvailable(its: seq<Iteration>) returns (published: nat)
      requires |its| == if cfg.batchSize < 0 then 0 else cfg.batchSize
      modifies outbox
      ensures outbox.rows == RunPass(cfg, old(outbox.rows), its).rows
      ensures published == RunPass(cfg, old(outbox.rows), its).published
    {
      published := 0;
      ghost var whole := RunPass(cfg, outbox.rows, its);
      assert its[0..] == its;
      for k := 0 to |its|
        invariant RunPass(cfg, outbox.rows, its[k..]).rows == whole.rows
        invariant published + RunPass(cfg, outbox.rows, its[k..]).published == whole.published
      {
        ghost var before := outbox.rows;
        var handled := RelayNext(its[k]);
        if handled.None? {
          return;
        }
        ghost var i :| IsNext(before, its[k].claimAt, i)
                       && outbox.rows == before[i := Handle(cfg, before[i], its[k].markAt, its[k].failure)];
        PassStep(cfg, before, its[k..], i);
        assert its[k..][1..] == its[k + 1..];
        if handled.value {
          published := published + 1;
        }
      }
    }
  }

  // ---- One pass while the clock stands still ----

  /** A failing row is not due again at the instant it failed. */
  predicate RetriesMoveForward(cfg: Config) {
    cfg.maxAttempts <= 1 || (cfg.baseSeconds > 0 && cfg.maxSeconds > 0)
  }

  lemma {:induction false} DelaySign(cfg: Config, n: nat)
    ensures RetryDelay(cfg, n) > 0 <==> cfg.baseSeconds > 0 && cfg.maxSeconds > 0
    ensures RetryDelay(cfg, n) >= 0 <==> cfg.baseSeconds >= 0 && cfg.maxSeconds >= 0
  {
    PowPositive(n);
    var p := Pow2(n);
    if cfg.baseSeconds > 0 {
      assert cfg.baseSeconds * p > 0;
    } else if cfg.baseSeconds < 0 {
      assert (-cfg.baseSeconds) * p > 0;
    }
  }

  lemma {:induction false} PowPositive(n: nat)
    ensures Pow2(n) >= 1
  {
    if n == 0 {
    } else {
      PowPositive(n - 1);
    }
  }

  predicate Frozen(its: seq<Iteration>, now: int) {
    forall k :: 0 <= k < |its| ==> its[k].claimAt == its[k].markAt == now
  }

  function Publishes(its: seq<Iteration>): nat {
    if its == [] then 0 else (if its[0].failure.None? then 1 else 0) + Publishes(its[1..])
  }

  /** Rows after the listed ones were handled, one per iteration. */
  function HandleAll(cfg: Config, rows: Table, ids: seq<nat>, its: seq<Iteration>): Table
    requires |ids| <= |its|
  {
    if ids == [] || ids[0] !in rows then rows
    else HandleAll(cfg, rows[ids[0] := Handle(cfg, rows[ids[0]], its[0].markAt, its[0].failure)], ids[1..], its[1..])
  }

  /** Handling distinct rows changes each of them once and nothing else. */
  lemma {:induction false} HandleAllOnce(cfg: Config, rows: Table, ids: seq<nat>, its: seq<Iteration>, i: nat)
    requires |ids| <= |its| && Distinct(ids) && (forall id :: id in ids ==> id in rows) && i in rows
    ensures var after := HandleAll(cfg, rows, ids, its);
            && after.Keys == rows.Keys
            && (i !in ids ==> after[i] == rows[i])
            && (forall j :: 0 <= j < |ids| && ids[j] == i ==>
                  after[i] == Handle(cfg, rows[i], its[j].markAt, its[j].failure))
    decreases |ids|
  {
    if ids == [] {
    } else {
      var marked := rows[ids[0] := Handle(cfg, rows[ids[0]], its[0].markAt, its[0].failure)];
      HandleAllOnce(cfg, marked, ids[1..], its[1..], i);
      forall j | 0 < j < |ids| && ids[j] == i
        ensures HandleAll(cfg, rows, ids, its)[i] == Handle(cfg, rows[i], its[j].markAt, its[j].failure)
      {
        assert ids[1..][j - 1] == i && its[1..][j - 1] == its[j];
      }
    }
  }

  /** While the clock stands still, a pass handles exactly the first rows that are due, as
      many as the batch takes, in order and each once, whatever fails, and returns how
      many were published. */
  lemma {:induction false} FrozenPass(cfg: Config, rows: Table, now: int, its: seq<Iteration>)
    requires RetriesMoveForward(cfg) && Frozen(its, now)
    ensures var order := DueInOrder(rows, now);
            var n := Min(|its|, |order|);
            var pass := RunPass(cfg, rows, its);
            && pass.handled == order[..n]
            && pass.published == Publishes(its[..n])
            && pass.rows == HandleAll(cfg, rows, order[..n], its[..n])
    decreases |its|
  {
    var order := DueInOrder(rows, now);
    var n := Min(|its|, |order|);
    if its == [] || DueIds(rows, now) == {} {
    } else {
      NextExists(rows, now);
      var i :| IsNext(rows, now, i);
      var marked := rows[i := Handle(cfg, rows[i], now, its[0].failure)];
      DelaySign(cfg, rows[i].attempts);
      TakingTheFirst(rows, now, i, marked[i]);
      PassStep(cfg, rows, its, i);
      FrozenPass(cfg, marked, now, its[1..]);
      PrefixOfCons(i, DueInOrder(marked, now), n);
      PrefixOfCons(its[0], its[1..], n);
      assert its == [its[0]] + its[1..];
      HandleAllCons(cfg, rows, i, DueInOrder(marked, now)[..n - 1], its[0], its[1..][..n - 1]);
    }
  }

  lemma PrefixOfCons<T>(x: T, rest: seq<T>, n: nat)
    requires 1 <= n <= |rest| + 1
    ensures ([x] + rest)[..n] == [x] + rest[..n - 1]
  {
  }

  lemma HandleAllCons(cfg: Config, rows: Table, i: nat, ids: seq<nat>, it: Iteration, its: seq<Iteration>)
    requires |ids| <= |its| && i in rows
    ensures HandleAll(cfg, rows, [i] + ids, [it] + its)
            == HandleAll(cfg, rows[i := Handle(cfg, rows[i], it.markAt, it.failure)], ids, its)
    ensures Publishes([it] + its) == (if it.failure.None? then 1 else 0) + Publishes(its)
  {
  }

  /** The same, row by row: the j-th due row is handled with the j-th outcome, and every
      other row stands. */
  lemma FrozenPassRowByRow(cfg: Config, rows: Table, now: int, its: seq<Iteration>, i: nat)
    requires RetriesMoveForward(cfg) && Frozen(its, now) && i in rows
    ensures var order := DueInOrder(rows, now);
            var n := Min(|its|, |order|);
            var after := RunPass(cfg, rows, its).rows;
            && after.Keys == rows.Keys
            && (i !in order[..n] ==> after[i] == rows[i])
            && (forall j :: 0 <= j < n && order[j] == i ==> after[i] == Handle(cfg, rows[i], now, its[j].failure))
  {
    FrozenPass(cfg, rows, now, its);
    DueInOrderIsSorted(rows, now);
    var order := DueInOrder(rows, now);
    var n := Min(|its|, |order|);
    forall id | id in order[..n] ensures id in rows {
      assert id in order && id in DueIds(rows, now);
    }
    assert Distinct(order[..n]);
    HandleAllOnce(cfg, rows, order[..n], its[..n], i);
  }

  /** The condition is needed: without it, a pass over a single failing row handles it twice. */
  lemma StuckRetriesRepeat(cfg: Config, r: Row, now: int, error: string)
    requires !RetriesMoveForward(cfg)
    requires Due(r, now) && r.attempts == 0
    ensures var failing := Iteration(now, now, Some(error));
            RunPass(cfg, map[0 := r], [failing, failing]).handled == [0, 0]
  {
    var failing := Iteration(now, now, Some(error));
    var rows: Table := map[0 := r];
    assert DueIds(rows, now) == {0};
    assert IsNext(rows, now, 0);
    PassStep(cfg, rows, [failing, failing], 0);
    DelaySign(cfg, 0);
    var again := rows[0 := Handle(cfg, r, now, Some(error))];
    assert DueIds(again, now) == {0};
    assert IsNext(again, now, 0);
    assert [failing, failing][1..] == [failing];
    PassStep(cfg, again, [failing], 0);
  }

  /** The due time can move back only under a negative setting. */
  lemma NegativeDelaysMoveBack(cfg: Config, r: Row, failure: string)
    requires cfg.maxAttempts > r.attempts + 1
    ensures Handle(cfg, r, r.availableAt, Some(failure)).availableAt >= r.availableAt
            <==> cfg.baseSeconds >= 0 && cfg.maxSeconds >= 0
  {
    DelaySign(cfg, r.attempts);
  }
}
