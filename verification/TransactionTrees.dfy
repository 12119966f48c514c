/** What nested blocks mean, as transaction trees, and that every well-nested run of the unit
    of work leaves the durable state its trees mean. */
module TransactionTrees {
  import opened Domain
  import opened UnitOfWork

  /** The body of a block: writes and nested blocks, in order.  Leaving a nested block does
      not commit, so whether a commit would fail makes no difference to it. */
  datatype Work =
    | Done
    | Then(key: nat, value: int, flush: bool, rest: Work)
    | Nested(inner: Work, failed: bool, commitFails: bool, rest: Work)

  /** The effect of a body on the state it starts from; a failed block has none. */
  function Meaning(w: Work, s: Store): Store {
    match w
    case Done => s
    case Then(k, v, _, rest) => Meaning(rest, s[k := v])
    case Nested(inner, failed, _, rest) => Meaning(rest, if failed then s else Meaning(inner, s))
  }

  /** The events a body performs. */
  function Events(w: Work): seq<Event> {
    match w
    case Done => []
    case Then(k, v, flush, rest) => [Write(k, v, flush)] + Events(rest)
    case Nested(inner, failed, commitFails, rest) =>
      [Enter] + Events(inner) + [Exit(failed, commitFails)] + Events(rest)
  }

  lemma {:induction false} RunConcatenation(m: Machine, first: seq<Event>, second: seq<Event>)
    ensures Run(m, first + second) == Run(Run(m, first), second)
    decreases |first|
  {
    if first == [] {
      assert [] + second == second;
    } else {
      assert (first + second)[1..] == first[1..] + second;
      RunConcatenation(Perform(m, first[0]).0, first[1..], second);
    }
  }

  lemma RunOne(m: Machine, e: Event)
    ensures Run(m, [e]) == Perform(m, e).0
  {
  }

  /** From `m` to `end` only what is in effect has changed, to `s`. */
  predicate Reaches(m: Machine, end: Machine, s: Store) {
    end.Valid() && end.Effective() == s && (end.durable, end.depth, end.savepoints) ==
          (m.durable, m.depth, m.savepoints)
  }

  lemma WritesInside(m: Machine, k: nat, v: int, flush: bool)
    requires m.Valid()
    ensures Reaches(m, Run(m, [Write(k, v, flush)]), m.Effective()[k := v])
  {
  }

  lemma RunBlock(m: Machine, inner: seq<Event>, exit: Event)
    ensures Run(m, [Enter] + inner + [exit]) == Perform(Run(Perform(m, Enter).0, inner), exit).0
  {
    RunOne(m, Enter);
    RunConcatenation(m, [Enter], inner);
    RunConcatenation(m, [Enter] + inner, [exit]);
    RunOne(Run(m, [Enter] + inner), exit);
  }

  /** A nested block: the savepoint brings back what was in effect. */
  lemma BlocksInside(m: Machine, end: Machine, exit: Event, s: Store)
    requires m.Valid() && m.depth > 0 && exit.Exit? && Reaches(Perform(m, Enter).0, end, s)
    ensures Reaches(m, Perform(end, exit).0, if exit.failed then m.Effective() else s)
  {
  }

  /** Inside a block, a body changes what is in effect as it means to, and leaves the depth,
      the savepoints and everything durable alone. */
  lemma {:induction false} BodiesMeanTheirTree(m: Machine, w: Work)
    requires m.Valid() && m.depth > 0
    ensures Reaches(m, Run(m, Events(w)), Meaning(w, m.Effective()))
    decreases w
  {
    match w {
      case Done =>
      case Then(k, v, flush, rest) =>
        WritesInside(m, k, v, flush);
        RunConcatenation(m, [Write(k, v, flush)], Events(rest));
        BodiesMeanTheirTree(Run(m, [Write(k, v, flush)]), rest);
      case Nested(inner, failed, commitFails, rest) =>
        var m1 := Perform(m, Enter).0;
        assert m1.Effective() == m.Effective();
        BodiesMeanTheirTree(m1, inner);
        var s := Meaning(inner, m.Effective());
        var exit := Exit(failed, commitFails);
        BlocksInside(m, Run(m1, Events(inner)), exit, s);
        RunBlock(m, Events(inner), exit);
        var block := [Enter] + Events(inner) + [exit];
        RunConcatenation(m, block, Events(rest));
        BodiesMeanTheirTree(Run(m, block), rest);
    }
  }

  // ---- Whole sessions ----

  /** A transaction of the session: statements that ran before it outside any block, its
      body, and how it ends. */
  datatype Transaction = Transaction(strays: seq<(nat, int)>, body: Work, failed: bool, commitFails: bool)
  {
    predicate Commits() {
      !failed && !commitFails
    }
  }

  function StrayEvents(strays: seq<(nat, int)>): seq<Event> {
    seq(|strays|, i requires 0 <= i < |strays| => Write(strays[i].0, strays[i].1, true))
  }

  function TransactionEvents(t: Transaction): seq<Event> {
    StrayEvents(t.strays) + [Enter] + Events(t.body) + [Exit(t.failed, t.commitFails)]
  }

  function SessionEvents(ts: seq<Transaction>): seq<Event> {
    if ts == [] then [] else TransactionEvents(ts[0]) + SessionEvents(ts[1..])
  }

  /** Transactions one after the other; only those that commit have an effect. */
  function SessionMeaning(ts: seq<Transaction>, s: Store): Store {
    if ts == [] then s else SessionMeaning(ts[1..], if ts[0].Commits() then Meaning(ts[0].body, s) else s)
  }

  /** Not inside a block, and nothing staged; a transaction may be open. */
  predicate Idle(m: Machine) {
    m.depth == 0 && m.savepoints == [] && m.pending == map[]
  }

  /** Statements outside any block never become durable by themselves. */
  lemma {:induction false} StraysStayOutside(m: Machine, strays: seq<(nat, int)>)
    requires Idle(m)
    ensures Idle(Run(m, StrayEvents(strays))) && Run(m, StrayEvents(strays)).durable == m.durable
    decreases |strays|
  {
    if strays == [] {
    } else {
      assert StrayEvents(strays)[1..] == StrayEvents(strays[1..]);
      StraysStayOutside(Perform(m, StrayEvents(strays)[0]).0, strays[1..]);
    }
  }

  /** The outermost block: durable is what the body means if it commits, and nothing else. */
  lemma OutermostBlock(m: Machine, body: Work, failed: bool, commitFails: bool)
    requires Idle(m)
    ensures var end := Run(m, [Enter] + Events(body) + [Exit(failed, commitFails)]);
            && Idle(end) && end.working.None?
            && end.durable == (if !failed && !commitFails then Meaning(body, m.durable) else m.durable)
  {
    var m1 := Perform(m, Enter).0;
    assert m1.Effective() == m.durable;
    BodiesMeanTheirTree(m1, body);
    RunBlock(m, Events(body), Exit(failed, commitFails));
  }

  /** The events of some transactions, with stray statements in between, leave the durable
      state that the transactions mean. */
  lemma {:induction false} SessionsMeanTheirTrees(m: Machine, ts: seq<Transaction>)
    requires Idle(m)
    ensures var end := Run(m, SessionEvents(ts));
            Idle(end) && end.durable == SessionMeaning(ts, m.durable)
    decreases |ts|
  {
    if ts == [] {
    } else {
      var t := ts[0];
      var block := [Enter] + Events(t.body) + [Exit(t.failed, t.commitFails)];
      StraysStayOutside(m, t.strays);
      OutermostBlock(Run(m, StrayEvents(t.strays)), t.body, t.failed, t.commitFails);
      assert TransactionEvents(t) == StrayEvents(t.strays) + block;
      RunConcatenation(m, StrayEvents(t.strays), block);
      RunConcatenation(m, TransactionEvents(t), SessionEvents(ts[1..]));
      SessionsMeanTheirTrees(Run(m, TransactionEvents(t)), ts[1..]);
    }
  }

  // ---- Every well-nested run ----

  /** Starting `depth` blocks deep, every exit closes a block, every block is closed in the
      end, and outside any block nothing is left unflushed. */
  predicate Nests(events: seq<Event>, depth: nat)
    decreases |events|
  {
    if events == [] then depth == 0 else
    match events[0]
    case Enter => Nests(events[1..], depth + 1)
    case Exit(_, _) => depth > 0 && Nests(events[1..], depth - 1)
    case Write(_, _, flush) => (flush || depth > 0) && Nests(events[1..], depth)
  }

  /** Inside a block, the events up to its exit are those of a body. */
  lemma {:induction false} BodyUpToExit(events: seq<Event>, depth: nat)
    returns (w: Work, exit: Event, after: seq<Event>)
    requires depth > 0 && Nests(events, depth)
    ensures exit.Exit? && events == Events(w) + ([exit] + after) && Nests(after, depth - 1) && |after| < |events|
    decreases |events|
  {
    match events[0] {
      case Exit(_, _) =>
        w, exit, after := Done, events[0], events[1..];
      case Write(k, v, flush) =>
        var rest;
        rest, exit, after := BodyUpToExit(events[1..], depth);
        w := Then(k, v, flush, rest);
        assert events == [events[0]] + (Events(rest) + ([exit] + after));
      case Enter =>
        var inner, close, between := BodyUpToExit(events[1..], depth + 1);
        var rest;
        rest, exit, after := BodyUpToExit(between, depth);
        w := Nested(inner, close.failed, close.commitFails, rest);
        Regroup([Enter], Events(inner), [close], Events(rest), [exit] + after);
        assert events == [Enter] + events[1..];
    }
  }

  /** Outside any block, a well-nested run is a sequence of transactions, and strays. */
  lemma {:induction false} WellNestedRunsAreTrees(events: seq<Event>)
    returns (ts: seq<Transaction>, trailing: seq<(nat, int)>)
    requires Nests(events, 0)
    ensures events == SessionEvents(ts) + StrayEvents(trailing)
    decreases |events|
  {
    if events == [] {
      ts, trailing := [], [];
    } else if events[0].Enter? {
      var body, exit, after := BodyUpToExit(events[1..], 1);
      ts, trailing := WellNestedRunsAreTrees(after);
      OneMoreTransaction(body, exit, ts, StrayEvents(trailing));
      ts := [Transaction([], body, exit.failed, exit.commitFails)] + ts;
    } else {
      ts, trailing := WellNestedRunsAreTrees(events[1..]);
      ts, trailing := OneMoreStray(events[0], ts, trailing);
      assert events == [events[0]] + events[1..];
    }
  }

  lemma OneMoreTransaction(body: Work, exit: Event, ts: seq<Transaction>, rest: seq<Event>)
    requires exit.Exit?
    ensures var t := Transaction([], body, exit.failed, exit.commitFails);
            SessionEvents([t] + ts) + rest == [Enter] + (Events(body) + ([exit] + (SessionEvents(ts) + rest)))
  {
    var t := Transaction([], body, exit.failed, exit.commitFails);
    assert ([t] + ts)[1..] == ts;
    assert TransactionEvents(t) == [Enter] + Events(body) + [exit];
    Regroup([Enter], Events(body), [exit], SessionEvents(ts), rest);
  }

  lemma Regroup(a: seq<Event>, b: seq<Event>, c: seq<Event>, d: seq<Event>, e: seq<Event>)
    ensures a + b + c + d + e == a + (b + (c + (d + e)))
  {
  }

  /** A stray statement belongs to the transaction that follows it, if there is one. */
  lemma OneMoreStray(e: Event, ts: seq<Transaction>, trailing: seq<(nat, int)>)
    returns (ts': seq<Transaction>, trailing': seq<(nat, int)>)
    requires e.Write? && e.flush
    ensures SessionEvents(ts') + StrayEvents(trailing') == [e] + (SessionEvents(ts) + StrayEvents(trailing))
  {
    var stray := [(e.key, e.value)];
    if ts == [] {
      ts', trailing' := [], stray + trailing;
      assert StrayEvents(stray + trailing) == [e] + StrayEvents(trailing);
    } else {
      var first := ts[0].(strays := stray + ts[0].strays);
      ts', trailing' := [first] + ts[1..], trailing;
      assert StrayEvents(first.strays) == [e] + StrayEvents(ts[0].strays);
      assert TransactionEvents(first) == [e] + TransactionEvents(ts[0]);
      assert ts'[1..] == ts[1..];
    }
  }

  /** Every well-nested run leaves the durable state that its transaction trees mean: a
      failed inner block undoes only itself, a failed outermost block or commit undoes
      everything, and statements outside any block are dropped. */
  lemma WellNestedRunsMeanTheirTrees(m: Machine, events: seq<Event>)
    returns (ts: seq<Transaction>, trailing: seq<(nat, int)>)
    requires Idle(m) && Nests(events, 0)
    ensures events == SessionEvents(ts) + StrayEvents(trailing)
    ensures Idle(Run(m, events)) && Run(m, events).durable == SessionMeaning(ts, m.durable)
  {
    ts, trailing := WellNestedRunsAreTrees(events);
    RunConcatenation(m, SessionEvents(ts), StrayEvents(trailing));
    SessionsMeanTheirTrees(m, ts);
    StraysStayOutside(Run(m, SessionEvents(ts)), trailing);
  }
}
