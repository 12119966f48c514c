/** The unit of work: nested transactions over one session, kept as a depth counter and a
    stack of savepoints. */
module UnitOfWork {
  import opened Domain

  /** Table contents, abstractly: values by key. */
  type Store = map<nat, int>

  /** The session and the unit of work as one value.  `durable` is what is committed,
      `working` the state of the open transaction if there is one, and `pending` the
      changes the session has not flushed yet. */
  datatype Machine = Machine(durable: Store, working: Option<Store>, pending: Store, depth: nat, savepoints: seq<Store>)
  {
    function View(): Store {
      if working.Some? then working.value else durable
    }

    /** What a statement would see once everything is flushed. */
    function Effective(): Store {
      View() + pending
    }

    /** One savepoint per nested block, and changes are pending only in a transaction. */
    predicate Valid() {
      && |savepoints| == (if depth == 0 then 0 else depth - 1)
      && (pending != map[] ==> working.Some?)
    }

    function Flushed(): Machine {
      this.(working := Some(Effective()), pending := map[])
    }

    function RolledBack(): Machine {
      this.(working := None, pending := map[])
    }
  }

  /** A write is flushed at once (as repositories do) or only staged in the session. */
  datatype Event =
    | Write(key: nat, value: int, flush: bool)
    | Enter
    | Exit(failed: bool, commitFails: bool)

  /** The effect of one event, and whether it raises. */
  function Perform(m: Machine, e: Event): (Machine, bool) {
    match e
    case Write(k, v, flush) =>
      if flush then (m.(working := Some(m.Effective()[k := v]), pending := map[]), false)
      else (m.(working := Some(m.View()), pending := m.pending[k := v]), false)
    case Enter =>
      if m.depth > 0 then (m.Flushed().(depth := m.depth + 1, savepoints := m.savepoints + [m.Effective()]), false)
      else if m.working.None? then (m.(depth := 1), false)
      else if m.pending != map[] then (m, true)
      else (m.RolledBack().(depth := 1), false)
    case Exit(failed, commitFails) =>
      if m.depth == 0 then (m, true)
      else if m.depth > 1 then
        if m.savepoints == [] then (m, true) else
        var last := |m.savepoints| - 1;
        var popped := m.(depth := m.depth - 1, savepoints := m.savepoints[..last]);
        (if failed then popped.(working := Some(m.savepoints[last]), pending := map[]) else popped.Flushed(), false)
      else if failed || commitFails then (m.RolledBack().(depth := 0, savepoints := []), !failed)
      else (m.RolledBack().(durable := m.Effective(), depth := 0), false)
  }

  /** A sequence of events; what raises changes nothing but is not the end. */
  function Run(m: Machine, events: seq<Event>): Machine
    decreases |events|
  {
    if events == [] then m else Run(Perform(m, events[0]).0, events[1..])
  }

  // ---- The implementation ----

  class Session {
    var durable: Store
    var working: Option<Store>
    var pending: Store

    constructor (durable: Store)
      ensures this.durable == durable && working == None && pending == map[]
    {
      this.durable, working, pending := durable, None, map[];
    }

    function View(): Store
      reads this
    {
      if working.Some? then working.value else durable
    }

    method Stage(key: nat, value: int)
      modifies this
      ensures durable == old(durable) && working == Some(old(View())) && pending == old(pending)[key := value]
    {
      working := Some(View());
      pending := pending[key := value];
    }

    method Flush()
      modifies this
      ensures durable == old(durable) && working == Some(old(View() + pending)) && pending == map[]
    {
      working, pending := Some(View() + pending), map[];
    }

    /** Opens a savepoint, which flushes first. */
    method BeginNested() returns (savepoint: Store)
      modifies this
      ensures savepoint == old(View() + pending)
      ensures durable == old(durable) && working == Some(savepoint) && pending == map[]
    {
      Flush();
      savepoint := working.value;
    }

    method RollbackTo(savepoint: Store)
      modifies this
      ensures durable == old(durable) && working == Some(savepoint) && pending == map[]
    {
      working, pending := Some(savepoint), map[];
    }

    method Rollback()
      modifies this
      ensures durable == old(durable) && working == None && pending == map[]
    {
      working, pending := None, map[];
    }

    /** Commit, unless the database refuses; then the transaction is still open. */
    method Commit(fails: bool) returns (raised: bool)
      modifies this
      ensures raised == fails
      ensures fails ==> durable == old(durable)
      ensures !fails ==> durable == old(View() + pending) && working == None && pending == map[]
    {
      Flush();
      if fails {
        return true;
      }
      durable, working := working.value, None;
      raised := false;
    }
  }

  class SqlUnitOfWork {
    const session: Session
    var depth: nat
    var savepoints: seq<Store>

    constructor (session: Session)
      requires session.working.None? && session.pending == map[]
      ensures this.session == session && State() == Machine(session.durable, None, map[], 0, []) && State().Valid()
    {
      this.session, depth, savepoints := session, 0, [];
    }

    function State(): Machine
      reads this, session
    {
      Machine(session.durable, session.working, session.pending, depth, savepoints)
    }

    /** A statement of a repository, or a change that the session has yet to flush. */
    method WriteRow(key: nat, value: int, flush: bool)
      requires State().Valid()
      modifies session
      ensures (State(), false) == Perform(old(State()), Write(key, value, flush)) && State().Valid()
    {
      session.Stage(key, value);
      if flush {
        session.Flush();
        assert old(session.View()) + old(session.pending)[key := value] ==
              (old(session.View()) + old(session.pending))[key := value];
      }
    }

    method EnterBlock() returns (raised: bool)
      requires State().Valid()
      modifies this, session
      ensures (State(), raised) == Perform(old(State()), Enter) && State().Valid()
    {
      if depth == 0 {
        raised := PrepareOutermost();
        if raised {
          return;
        }
      } else {
        var savepoint := session.BeginNested();
        savepoints := savepoints + [savepoint];
        raised := false;
      }
      depth := depth + 1;
    }

    /** Make sure the new transaction starts clean. */
    method PrepareOutermost() returns (raised: bool)
      modifies session
      ensures raised <==> old(session.working).Some? && old(session.pending) != map[]
      ensures session.durable == old(session.durable)
      ensures raised || old(session.working).None? ==>
                session.working == old(session.working) && session.pending == old(session.pending)
      ensures !raised && old(session.working).Some? ==> session.working == None && session.pending == map[]
    {
      if session.working.None? {
        return false;
      }
      if session.pending != map[] {
        return true;
      }
      session.Rollback();
      raised := false;
    }

    /** `failed` tells whether the block ends with an exception, which goes on to the
        caller in any case; `raised` tells whether leaving the block raises one itself. */
    method ExitBlock(failed: bool, commitFails: bool) returns (raised: bool)
      requires State().Valid()
      modifies this, session
      ensures (State(), raised) == Perform(old(State()), Exit(failed, commitFails)) && State().Valid()
    {
      if depth == 0 {
        return true;
      }
      depth := depth - 1;
      raised := false;
      if depth > 0 {
        ExitNested(failed);
      } else if !failed {
        raised := session.Commit(commitFails);
        if raised {
          RollbackAll();
        }
      } else {
        RollbackAll();
      }
    }

    method ExitNested(failed: bool)
      requires savepoints != []
      modifies session, this`savepoints
      ensures savepoints == old(savepoints)[..|old(savepoints)| - 1]
      ensures session.durable == old(session.durable) && session.pending == map[]
      ensures session.working == Some(if failed then old(savepoints)[|old(savepoints)| - 1]
            else old(session.View() + session.pending))
    {
      var savepoint := savepoints[|savepoints| - 1];
      savepoints := savepoints[..|savepoints| - 1];
      if failed {
        session.RollbackTo(savepoint);
      } else {
        session.Flush();
      }
    }

    method RollbackAll()
      modifies session, this`savepoints
      ensures savepoints == []
      ensures session.durable == old(session.durable) && session.working == None && session.pending == map[]
    {
      session.Rollback();
      savepoints := [];
    }
  }

  // ---- Any run at all ----

  /** Whatever happens, nested or not: there is one savepoint per open nested block (so an
      exit always finds its own), only leaving the outermost block without a failure makes
      anything durable, and what raises is an unmatched exit, a failing commit, or entering
      on top of staged changes. */
  lemma EveryEventKeepsTheStack(m: Machine, e: Event)
    requires m.Valid()
    ensures var (end, raised) := Perform(m, e);
            && end.Valid()
            && (end.durable != m.durable ==> e == Exit(false, false) && m.depth == 1)
            && (raised <==> || (e.Exit? && m.depth == 0)
                            || (e.Exit? && m.depth == 1 && !e.failed && e.commitFails)
                            || (e.Enter? && m.depth == 0 && m.pending != map[]))
            && (raised && !(e.Exit? && m.depth == 1) ==> end == m)
  {
  }

  lemma {:induction false} EveryRunKeepsTheStack(m: Machine, events: seq<Event>)
    requires m.Valid()
    ensures Run(m, events).Valid()
    decreases |events|
  {
    if events == [] {
    } else {
      EveryEventKeepsTheStack(m, events[0]);
      EveryRunKeepsTheStack(Perform(m, events[0]).0, events[1..]);
    }
  }
}
