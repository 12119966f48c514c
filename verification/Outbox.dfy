/** The transactional outbox: a table of messages waiting to be published, the order in
    which they are taken, and what publishing or failing does to a row. */
module Outbox {
  import opened Domain
  import NotificationEntity

  datatype Kind = IntakeMessage | DispatchMessage

  const PRIORITY_HIGH: nat := 0
  const PRIORITY_NORMAL: nat := 1

  /** What a writer announces; without `availableAt` the message is due at once. */
  datatype Entry = Entry(kind: Kind, aggregateId: nat, priority: nat, availableAt: Option<int>)

  function IntakeEntry(intakeId: nat, critical: bool): Entry {
    Entry(IntakeMessage, intakeId, if critical then PRIORITY_HIGH else PRIORITY_NORMAL, None)
  }

  function DispatchEntry(n: NotificationEntity.Notification): Entry {
    Entry(DispatchMessage, n.id, if n.category.Critical? then PRIORITY_HIGH else PRIORITY_NORMAL, n.sendAt)
  }

  datatype Row = Row(
    kind: Kind,
    aggregateId: nat,
    priority: nat,
    availableAt: int,
    attempts: nat,
    publishedAt: Option<int>,
    deadLetteredAt: Option<int>,
    lastError: Option<string>)

  function NewRow(e: Entry, now: int): Row {
    Row(e.kind, e.aggregateId, e.priority, if e.availableAt.Some? then e.availableAt.value else now, 0, None, None,
          None)
  }

  predicate Due(r: Row, now: int) {
    r.publishedAt.None? && r.deadLetteredAt.None? && r.availableAt <= now
  }

  const ERROR_LIMIT: nat := 2000

  function Truncated(error: string): string {
    if |error| <= ERROR_LIMIT then error else error[..ERROR_LIMIT]
  }

  function Published(r: Row, now: int): Row {
    r.(publishedAt := Some(now), lastError := None)
  }

  /** A failure is either retried at `retryAt` or, without one, dead-lettered. */
  function Failed(r: Row, now: int, error: string, retryAt: Option<int>): Row {
    var noted := r.(attempts := r.attempts + 1, lastError := Some(Truncated(error)));
    if retryAt.Some? then noted.(availableAt := retryAt.value) else noted.(deadLetteredAt := Some(now))
  }

  // ---- The order in which due rows are taken: priority, then due time, then id ----

  type Table = map<nat, Row>

  predicate Before(rows: Table, i: nat, j: nat) {
    && i in rows && j in rows
    && (|| rows[i].priority < rows[j].priority
        || (rows[i].priority == rows[j].priority
            && (|| rows[i].availableAt < rows[j].availableAt
                || (rows[i].availableAt == rows[j].availableAt && i < j))))
  }

  /** Neither published nor given up. */
  predicate Waiting(r: Row) {
    r.publishedAt == None && r.deadLetteredAt == None
  }

  /** A lower priority number comes first, then an earlier due time, then a smaller id. */
  predicate NoLater(rows: Table, i: nat, j: nat)
    requires i in rows && j in rows
  {
    && rows[i].priority <= rows[j].priority
    && (rows[i].priority == rows[j].priority ==> rows[i].availableAt <= rows[j].availableAt)
    && (rows[i].priority == rows[j].priority && rows[i].availableAt == rows[j].availableAt ==> i <= j)
  }

  function DueIds(rows: Table, now: int): set<nat> {
    set i | i in rows && Due(rows[i], now)
  }

  /** The row a relay takes next. */
  ghost predicate IsNext(rows: Table, now: int, i: nat) {
    i in DueIds(rows, now) && forall j :: j in DueIds(rows, now) && j != i ==> Before(rows, i, j)
  }

  lemma {:induction false} SomeFirst(rows: Table, ids: set<nat>) returns (i: nat)
    requires ids != {} && ids <= rows.Keys
    ensures i in ids && forall j :: j in ids && j != i ==> Before(rows, i, j)
    decreases ids
  {
    var x :| x in ids;
    i := x;
    if ids != {x} {
      var least := SomeFirst(rows, ids - {x});
      if Before(rows, least, x) {
        i := least;
      } else {
        assert Before(rows, x, least);
        forall j | j in ids && j != x ensures Before(rows, x, j) {
          assert j == least || Before(rows, least, j);
        }
      }
    }
  }

  lemma NextExists(rows: Table, now: int)
    requires DueIds(rows, now) != {}
    ensures exists i :: IsNext(rows, now, i)
  {
    var i := SomeFirst(rows, DueIds(rows, now));
    assert IsNext(rows, now, i);
  }

  lemma NextIsUnique(rows: Table, now: int, i: nat, j: nat)
    requires IsNext(rows, now, i) && IsNext(rows, now, j)
    ensures i == j
  {
  }

  /** All due rows, in the order they are taken. */
  ghost function DueInOrder(rows: Table, now: int): seq<nat>
    decreases |rows|
  {
    if DueIds(rows, now) == {} then [] else
    NextExists(rows, now);
    var i :| IsNext(rows, now, i);
    RemovalShrinks(rows, i);
    [i] + DueInOrder(rows - {i}, now)
  }

  lemma RemovalShrinks(rows: Table, i: nat)
    requires i in rows
    ensures |rows - {i}| < |rows|
  {
  }

  /** The list is exactly the due rows, each once, in strictly ascending order. */
  lemma {:induction false} DueInOrderIsSorted(rows: Table, now: int)
    ensures forall i :: i in DueInOrder(rows, now) <==> i in DueIds(rows, now)
    ensures forall a, b :: 0 <= a < b < |DueInOrder(rows, now)| ==>
              Before(rows, DueInOrder(rows, now)[a], DueInOrder(rows, now)[b])
    ensures Distinct(DueInOrder(rows, now))
    decreases |rows|
  {
    if DueIds(rows, now) == {} {
    } else {
      var order := DueInOrder(rows, now);
      var i := order[0];
      var rest := rows - {i};
      NextExists(rows, now);
      assert IsNext(rows, now, i);
      RemovalShrinks(rows, i);
      assert order[1..] == DueInOrder(rest, now);
      DueInOrderIsSorted(rest, now);
      assert DueIds(rest, now) == DueIds(rows, now) - {i};
      forall a, b | 0 <= a < b < |order| ensures Before(rows, order[a], order[b]) && order[a] != order[b] {
        assert order[b] == order[1..][b - 1] && order[b] in DueIds(rest, now);
        if a > 0 {
          assert order[a] == order[1..][a - 1];
          assert Before(rest, order[a], order[b]);
        }
      }
    }
  }

  /** The order depends only on the rows that are due. */
  lemma {:induction false} OrderIgnoresOthers(r1: Table, r2: Table, now: int)
    requires DueIds(r1, now) == DueIds(r2, now)
    requires forall i :: i in DueIds(r1, now) ==> r1[i] == r2[i]
    ensures DueInOrder(r1, now) == DueInOrder(r2, now)
    decreases |r1|
  {
    if DueIds(r1, now) == {} {
    } else {
      NextExists(r1, now);
      NextExists(r2, now);
      var i, j := DueInOrder(r1, now)[0], DueInOrder(r2, now)[0];
      assert IsNext(r1, now, i) && IsNext(r2, now, j);
      assert IsNext(r2, now, i);
      NextIsUnique(r2, now, i, j);
      RemovalShrinks(r1, i);
      assert DueIds(r1 - {i}, now) == DueIds(r1, now) - {i} == DueIds(r2 - {i}, now);
      OrderIgnoresOthers(r1 - {i}, r2 - {i}, now);
    }
  }

  /** Once the first row is no longer due, the next one in order leads. */
  lemma TakingTheFirst(rows: Table, now: int, i: nat, r: Row)
    requires IsNext(rows, now, i) && !Due(r, now)
    ensures DueInOrder(rows, now) == [i] + DueInOrder(rows[i := r], now)
  {
    NextExists(rows, now);
    var j := DueInOrder(rows, now)[0];
    assert IsNext(rows, now, j);
    NextIsUnique(rows, now, i, j);
    assert DueIds(rows - {i}, now) == DueIds(rows, now) - {i} == DueIds(rows[i := r], now);
    OrderIgnoresOthers(rows - {i}, rows[i := r], now);
  }

  class OutboxTable {
    var rows: Table
    var nextId: nat

    /** Ids are handed out in ascending order. */
    ghost predicate Valid()
      reads this
    {
      forall i :: i in rows ==> i < nextId
    }

    constructor ()
      ensures Valid() && rows == map[]
    {
      rows, nextId := map[], 0;
    }

    method Enqueue(e: Entry, now: int)
      requires Valid()
      modifies this
      ensures Valid() && nextId == old(nextId) + 1
      ensures rows == old(rows)[old(nextId) := NewRow(e, now)] && old(nextId) !in old(rows)
    {
      rows := rows[nextId := NewRow(e, now)];
      nextId := nextId + 1;
    }

    /** The next due row in order, if any. */
    method ClaimNext(now: int) returns (id: Option<nat>)
      ensures id.None? <==> DueIds(rows, now) == {}
      ensures id.Some? ==> IsNext(rows, now, id.value)
      ensures forall j :: j in rows && Waiting(rows[j]) && rows[j].availableAt <= now ==>
                            && id.Some? && id.value in rows && Waiting(rows[id.value])
                            && rows[id.value].availableAt <= now && NoLater(rows, id.value, j)
    {
      var due := DueIds(rows, now);
      assert forall j :: j in rows && Waiting(rows[j]) && rows[j].availableAt <= now ==> j in due;
      if due == {} {
        return None;
      }
      NextExists(rows, now);
      var i: nat :| i in due && forall j :: j in due && j != i ==> Before(rows, i, j);
      forall j | j in rows && Waiting(rows[j]) && rows[j].availableAt <= now ensures NoLater(rows, i, j) {
        assert j in due && (j == i || Before(rows, i, j));
      }
      id := Some(i);
    }

    method MarkPublished(id: nat, now: int)
      requires id in rows
      modifies this`rows
      ensures rows == old(rows)[id := Published(old(rows)[id], now)]
    {
      rows := rows[id := rows[id].(publishedAt := Some(now), lastError := None)];
    }

    method MarkFailed(id: nat, now: int, error: string, retryAt: Option<int>)
      requires id in rows
      modifies this`rows
      ensures rows == old(rows)[id := Failed(old(rows)[id], now, error, retryAt)]
    {
      var row := rows[id].(attempts := rows[id].attempts + 1, lastError := Some(Truncated(error)));
      if retryAt.None? {
        row := row.(deadLetteredAt := Some(now));
      } else {
        row := row.(availableAt := retryAt.value);
      }
      rows := rows[id := row];
    }
  }
}
