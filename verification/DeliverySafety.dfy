/** Safety of the delivery protocol over whole executions. */
module DeliverySafety {
  import opened Domain
  import opened NotificationEntity
  import opened DeliveryProtocol

  // ---- The inductive invariant ----

  /** What holds of a worker's private state in any execution. */
  predicate PhaseSound(w: World, p: Phase) {
    match p
    case Idle => true
    case Considering(seen, readAt) =>
      seen.Valid() && readAt <= w.now && Consider(seen, readAt, w.lease).Some?
    case Prepared(n, expected, staleBefore) =>
      && n.Valid() && n.status.Processing?
      && expected in {Pending, Postponed, Processing}
      && (expected.Processing? ==> staleBefore.Some? && staleBefore.value <= w.now - w.lease)
    case Holding(n) => n.Valid() && n.status.Processing?
    case Calling(n, _, _) => n.Valid() && n.status.Processing?
  }

  ghost predicate Sound(w: World) {
    w.row.Valid() && forall k: nat :: PhaseSound(w, PhaseOf(w, k))
  }

  /** At most one holder, and the row is in PROCESSING under its stamp. */
  ghost predicate Exclusive(w: World) {
    && (forall k: nat :: Holder(w, k) ==>
          w.row.status.Processing? && w.row.updatedAt == PhaseOf(w, k).processing.updatedAt)
    && (forall j: nat, k: nat :: Holder(w, j) && Holder(w, k) ==> j == k)
  }

  /** The log records a success exactly when the row says delivered. */
  predicate Accounted(w: World) {
    Successes(w.attempts) == if w.row.status.Delivered? then 1 else 0
  }

  /** The step is one of this worker's. */
  predicate Touches(s: Step, k: nat) {
    !s.Tick? && !s.Cancel? && s.worker == k
  }

  lemma OthersKeepTheirPhase(w: World, s: Step, k: nat)
    requires Next(w, s).Some? && !Touches(s, k)
    ensures PhaseOf(Next(w, s).value, k) == PhaseOf(w, k)
  {
  }

  lemma SoundStep(w: World, s: Step)
    requires Sound(w) && Next(w, s).Some?
    ensures Sound(Next(w, s).value)
  {
    var v := Next(w, s).value;
    RowStaysValid(w, s);
    forall k: nat ensures PhaseSound(v, PhaseOf(v, k)) {
      assert PhaseSound(w, PhaseOf(w, k));
      if !Touches(s, k) {
        OthersKeepTheirPhase(w, s, k);
      }
    }
  }

  lemma RowStaysValid(w: World, s: Step)
    requires Sound(w) && Next(w, s).Some?
    ensures Next(w, s).value.row.Valid()
  {
    assert !s.Tick? && !s.Cancel? ==> PhaseSound(w, PhaseOf(w, s.worker));
  }

  lemma SuccessesAppend(log: seq<Attempt>, a: Attempt)
    ensures Successes(log + [a]) == Successes(log) + if a.success then 1 else 0
  {
  }

  /** A row that a worker may still act on has no holder whose lease is running. */
  lemma NobodyHolds(w: World, staleBefore: int)
    requires Exclusive(w) && !Overrun(w)
    requires w.row.status.Processing? ==> w.row.updatedAt <= staleBefore <= w.now - w.lease
    ensures forall j: nat :: !Holder(w, j)
  {
  }

  /** The steps that end a hold come from the one holder; the steps that start one, and
      the writes that need none, find no holder. */
  lemma WritersAreAlone(w: World, s: Step)
    requires Sound(w) && Exclusive(w) && !Overrun(w)
    requires s.Reject? ==> FreshRejection(w, s.worker)
    requires Next(w, s).Some? && Next(w, s).value.row != w.row
    ensures forall j: nat :: Holder(w, j) ==> Touches(s, j)
    ensures s.FinishSend? || s.FailWithoutAddress? <==> exists j: nat :: Holder(w, j)
  {
    if s.Cancel? {
      assert w.row.status.Pending?;
    } else {
      assert PhaseSound(w, PhaseOf(w, s.worker));
      match s {
        case Reject(k, _) => NobodyHolds(w, PhaseOf(w, k).readAt - w.lease);
        case Claim(k) => NobodyHolds(w, w.now - w.lease);
        case FinishSend(k, _) => assert Holder(w, k);
        case FailWithoutAddress(k) => assert Holder(w, k);
      }
    }
  }

  /** One step keeps the exclusion, unless a lease is overrun already or a policy
      rejection lands on a row that moved on. */
  lemma ExclusiveStep(w: World, s: Step)
    requires Sound(w) && Exclusive(w) && !Overrun(w)
    requires s.Reject? ==> FreshRejection(w, s.worker)
    requires Next(w, s).Some?
    ensures Exclusive(Next(w, s).value)
  {
    var v := Next(w, s).value;
    if v.row != w.row {
      WritersAreAlone(w, s);
    } else if s.Claim? && Holder(v, s.worker) {
      assert PhaseSound(w, PhaseOf(w, s.worker));
      NobodyHolds(w, w.now - w.lease);
    }
    forall k: nat | !Touches(s, k) ensures Holder(v, k) == Holder(w, k) {
      OthersKeepTheirPhase(w, s, k);
    }
    if s.BeginSend? || s.Prepare? || s.Read? {
      assert Holder(v, s.worker) ==> Holder(w, s.worker);
    }
  }

  /** Without an attempt being logged, no row becomes or stops being DELIVERED. */
  lemma UnloggedStep(w: World, s: Step)
    requires Sound(w) && Next(w, s).Some? && !s.FinishSend? && !s.FailWithoutAddress?
    requires s.Reject? ==> FreshRejection(w, s.worker)
    ensures var v := Next(w, s).value;
            v.attempts == w.attempts && v.row.status.Delivered? == w.row.status.Delivered?
  {
  }

  /** Recording an outcome logs one attempt, a success exactly if the row is delivered. */
  lemma LoggedStep(w: World, s: Step)
    requires Next(w, s).Some? && (s.FinishSend? || s.FailWithoutAddress?)
    ensures Holder(w, s.worker)
    ensures var v := Next(w, s).value;
            && |v.attempts| == |w.attempts| + 1
            && v.attempts == w.attempts + [v.attempts[|w.attempts|]]
            && v.attempts[|w.attempts|].success == v.row.status.Delivered?
  {
  }

  /** One step keeps the accounting, under the same conditions. */
  lemma AccountedStep(w: World, s: Step)
    requires Sound(w) && Exclusive(w) && Accounted(w)
    requires s.Reject? ==> FreshRejection(w, s.worker)
    requires Next(w, s).Some?
    ensures Accounted(Next(w, s).value)
  {
    if s.FinishSend? || s.FailWithoutAddress? {
      LoggedStep(w, s);
      SuccessesAppend(w.attempts, Next(w, s).value.attempts[|w.attempts|]);
    } else {
      UnloggedStep(w, s);
    }
  }

  lemma {:induction false} SafeUpTo(states: seq<World>, steps: seq<Step>, i: nat)
    requires Execution(states, steps) && i < |states|
    requires RejectionsFresh(states, steps, i)
    requires forall j :: 0 <= j < i ==> !Overrun(states[j])
    ensures Sound(states[i]) && Exclusive(states[i]) && Accounted(states[i])
  {
    if i == 0 {
      forall k: nat ensures PhaseOf(states[0], k).Idle? {}
    } else {
      SafeUpTo(states, steps, i - 1);
      assert Next(states[i - 1], steps[i - 1]) == Some(states[i]);
      SoundStep(states[i - 1], steps[i - 1]);
      ExclusiveStep(states[i - 1], steps[i - 1]);
      AccountedStep(states[i - 1], steps[i - 1]);
    }
  }

  // ---- Main results ----

  /** If two workers are ever both between claim and outcome, some holder had already
      overrun its lease; as long as nobody has, there is at most one holder and the row
      is PROCESSING under the stamp that holder wrote. */
  lemma MutualExclusion(states: seq<World>, steps: seq<Step>, i: nat)
    requires Execution(states, steps) && i < |states|
    requires RejectionsFresh(states, steps, i)
    ensures (exists j :: 0 <= j < i && Overrun(states[j])) || Exclusive(states[i])
  {
    if forall j :: 0 <= j < i ==> !Overrun(states[j]) {
      SafeUpTo(states, steps, i);
    }
  }

  /** With leases kept, a row is DELIVERED exactly when one success is logged, never more. */
  lemma DeliveredExactlyOnce(states: seq<World>, steps: seq<Step>, i: nat)
    requires Execution(states, steps) && i < |states|
    requires RejectionsFresh(states, steps, i) && LeasesKept(states, i)
    ensures Successes(states[i].attempts) <= 1
    ensures states[i].row.status.Delivered? <==> Successes(states[i].attempts) == 1
  {
    SafeUpTo(states, steps, i);
  }

  lemma TerminalStep(w: World, s: Step)
    requires Sound(w) && Exclusive(w) && w.row.Terminal()
    requires s.Reject? ==> FreshRejection(w, s.worker)
    requires Next(w, s).Some?
    ensures Next(w, s).value.row == w.row
  {
  }

  /** With leases kept, a terminal row never changes again. */
  lemma {:induction false} TerminalRowsAreFinal(states: seq<World>, steps: seq<Step>, i: nat, j: nat)
    requires Execution(states, steps) && i <= j < |states|
    requires RejectionsFresh(states, steps, j) && LeasesKept(states, j)
    requires states[i].row.Terminal()
    ensures states[j].row == states[i].row
    decreases j
  {
    if i == j {
    } else {
      TerminalRowsAreFinal(states, steps, i, j - 1);
      SafeUpTo(states, steps, j - 1);
      assert Next(states[j - 1], steps[j - 1]) == Some(states[j]);
      TerminalStep(states[j - 1], steps[j - 1]);
    }
  }

  /** With leases kept, a provider call begins only on a row that is PROCESSING under the
      caller's stamp while nobody else holds it; so none begins once the row has become
      DELIVERED, CANCELLED or otherwise terminal. */
  lemma NoCallAfterTheEnd(states: seq<World>, steps: seq<Step>, i: nat, j: nat)
    requires Execution(states, steps) && i <= j < |steps|
    requires RejectionsFresh(states, steps, j) && LeasesKept(states, j)
    requires steps[j].BeginSend?
    ensures states[j].row.status.Processing?
    ensures forall k: nat :: Holder(states[j], k) ==> k == steps[j].worker
    ensures !states[i].row.Terminal()
  {
    SafeUpTo(states, steps, j);
    assert Next(states[j], steps[j]) == Some(states[j + 1]);
    assert Holder(states[j], steps[j].worker);
    if states[i].row.Terminal() {
      TerminalRowsAreFinal(states, steps, i, j);
    }
  }

  /** When someone holds the row, a competing claim succeeds exactly when it is a reclaim of
      this very row whose reader's clock had already passed the holder's lease. */
  lemma ClaimAgainstHolder(w: World, holder: nat, k: nat)
    requires Exclusive(w) && Holder(w, holder) && PhaseOf(w, k).Prepared?
    ensures Holder(Next(w, Claim(k)).value, k) <==>
              && (PhaseOf(w, k).processing.id, PhaseOf(w, k).processing.projectId) == (w.row.id, w.row.projectId)
              && PhaseOf(w, k).expected.Processing?
              && PhaseOf(w, k).staleBefore.Some?
              && PhaseOf(w, holder).processing.updatedAt <= PhaseOf(w, k).staleBefore.value
  {
  }

  // ---- Send times ----

  /** The notification a worker has in hand, from its read to its outcome. */
  function InHand(p: Phase): Option<Notification> {
    match p
    case Idle => None
    case Considering(seen, _) => Some(seen)
    case Prepared(n, _, _) => Some(n)
    case Holding(n) => Some(n)
    case Calling(n, _, _) => Some(n)
  }

  /** The send time of what a worker has in hand, if there is one, has come. */
  predicate TimeHasCome(w: World, p: Phase) {
    InHand(p).Some? && InHand(p).value.sendAt.Some? ==> InHand(p).value.sendAt.value <= w.now
  }

  lemma TimesKeepComing(w: World, s: Step, k: nat)
    requires TimeHasCome(w, PhaseOf(w, k)) && Next(w, s).Some?
    ensures TimeHasCome(Next(w, s).value, PhaseOf(Next(w, s).value, k))
  {
    if !Touches(s, k) {
      OthersKeepTheirPhase(w, s, k);
    }
  }

  /** In every execution, whatever the leases: no worker ever has a notification in hand
      before its send time. */
  lemma {:induction false} NothingIsTakenUpEarly(states: seq<World>, steps: seq<Step>, i: nat, k: nat)
    requires Execution(states, steps) && i < |states|
    ensures TimeHasCome(states[i], PhaseOf(states[i], k))
  {
    if i == 0 {
    } else {
      NothingIsTakenUpEarly(states, steps, i - 1, k);
      assert Next(states[i - 1], steps[i - 1]) == Some(states[i]);
      TimesKeepComing(states[i - 1], steps[i - 1], k);
    }
  }

  /** So nothing is handed to the provider, or taken on by it, before its send time. */
  lemma NothingIsSentEarly(states: seq<World>, steps: seq<Step>, j: nat)
    requires Execution(states, steps) && j < |steps| && (steps[j].BeginSend? || steps[j].ProviderAccepts?)
    ensures Holder(states[j], steps[j].worker)
    ensures var n := PhaseOf(states[j], steps[j].worker).processing;
            n.sendAt.Some? ==> n.sendAt.value <= states[j].now
  {
    NothingIsTakenUpEarly(states, steps, j, steps[j].worker);
    assert Next(states[j], steps[j]) == Some(states[j + 1]);
  }

  predicate Backed(w: World) {
    w.row.status.Delivered? ==> Successes(w.attempts) >= 1
  }

  /** Only an accepted send makes a row DELIVERED, and it logs a success with it. */
  lemma OnlySuccessDelivers(w: World, s: Step)
    requires Sound(w) && Next(w, s).Some?
    requires Next(w, s).value.row.status.Delivered? && !w.row.status.Delivered?
    ensures s.FinishSend? && s.result.Accepted?
    ensures exists a: Attempt :: a.success && Next(w, s).value.attempts == w.attempts + [a]
  {
  }

  lemma AttemptsOnlyGrow(w: World, s: Step)
    requires Next(w, s).Some?
    ensures var v := Next(w, s).value;
            v.attempts == w.attempts || exists a: Attempt :: v.attempts == w.attempts + [a]
  {
  }

  lemma BackedStep(w: World, s: Step)
    requires Sound(w) && Backed(w) && Next(w, s).Some?
    ensures Backed(Next(w, s).value)
  {
    var v := Next(w, s).value;
    if v.row.status.Delivered? {
      if !w.row.status.Delivered? {
        OnlySuccessDelivers(w, s);
        var a: Attempt :| a.success && v.attempts == w.attempts + [a];
        SuccessesAppend(w.attempts, a);
      } else {
        AttemptsOnlyGrow(w, s);
        if a: Attempt :| v.attempts == w.attempts + [a] {
          SuccessesAppend(w.attempts, a);
        }
      }
    }
  }

  /** Without any assumption on leases or policy writes: a DELIVERED row always has a
      success in its log. */
  lemma {:induction false} DeliveredIsAlwaysLogged(states: seq<World>, steps: seq<Step>, i: nat)
    requires Execution(states, steps) && i < |states|
    ensures Sound(states[i]) && Backed(states[i])
  {
    if i == 0 {
      forall k: nat ensures PhaseOf(states[0], k).Idle? {}
    } else {
      DeliveredIsAlwaysLogged(states, steps, i - 1);
      assert Next(states[i - 1], steps[i - 1]) == Some(states[i]);
      SoundStep(states[i - 1], steps[i - 1]);
      BackedStep(states[i - 1], steps[i - 1]);
    }
  }

  /** A crashed worker does not strand the row: once the lease it wrote has run out, any
      idle worker can read, prepare and claim it (if its send time, if any, has come). */
  lemma AbandonedRowsCanBeReclaimed(w: World, k: nat)
    requires w.row.Valid() && w.row.status.Processing? && PhaseOf(w, k).Idle?
    requires w.row.updatedAt + w.lease <= w.now
    requires w.row.sendAt.Some? ==> w.row.sendAt.value <= w.now
    ensures Run(w, [Read(k), Prepare(k, None), Claim(k)]).Some?
    ensures Holder(Run(w, [Read(k), Prepare(k, None), Claim(k)]).value, k)
  {
    var steps := [Read(k), Prepare(k, None), Claim(k)];
    var w1 := Next(w, Read(k)).value;
    var w2 := Next(w1, Prepare(k, None)).value;
    assert steps[1..] == [Prepare(k, None), Claim(k)];
    assert steps[1..][1..] == [Claim(k)];
    assert Run(w2, [Claim(k)]) == Next(w2, Claim(k));
  }
}
