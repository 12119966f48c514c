/** Executions showing that neither assumption of the delivery results can be dropped. */
module DeliveryWitnesses {
  import opened Domain
  import opened NotificationEntity
  import opened DeliveryProtocol
  import opened DeliverySafety

  // ---- Executions within one instant keep every lease ----

  /** The clock shows t, and so does every stamp a worker carries. */
  ghost predicate Frozen(w: World, t: int) {
    w.now == t && forall k: nat :: Stamped(PhaseOf(w, k)) ==> PhaseOf(w, k).processing.updatedAt == t
  }

  predicate Stamped(p: Phase) {
    p.Prepared? || p.Holding? || p.Calling?
  }

  lemma FrozenStep(w: World, s: Step, t: int)
    requires Frozen(w, t) && !s.Tick? && Next(w, s).Some?
    ensures Frozen(Next(w, s).value, t)
  {
    var v := Next(w, s).value;
    forall k: nat | Stamped(PhaseOf(v, k)) ensures PhaseOf(v, k).processing.updatedAt == t {
      if !Touches(s, k) {
        OthersKeepTheirPhase(w, s, k);
      }
    }
  }

  ghost predicate NobodyAtWork(w: World) {
    forall k: nat :: PhaseOf(w, k).Idle?
  }

  /** From a state in which nobody is at work, as long as the clock stands still. */
  lemma {:induction false} InstantsKeepLeases(states: seq<World>, steps: seq<Step>, start: nat, i: nat)
    requires Execution(states, steps) && start <= i < |states|
    requires states[start].lease > 0 && NobodyAtWork(states[start])
    requires forall j :: start <= j < i ==> !steps[j].Tick?
    ensures Frozen(states[i], states[start].now) && states[i].lease == states[start].lease && !Overrun(states[i])
    decreases i
  {
    if i == start {
      forall k: nat ensures !Stamped(PhaseOf(states[start], k)) {
        assert PhaseOf(states[start], k).Idle?;
      }
    } else {
      InstantsKeepLeases(states, steps, start, i - 1);
      assert Next(states[i - 1], steps[i - 1]) == Some(states[i]);
      FrozenStep(states[i - 1], steps[i - 1], states[start].now);
    }
    forall k: nat ensures Holder(states[i], k) ==> Stamped(PhaseOf(states[i], k)) {}
  }

  // ---- Building executions ----

  /** Lengthen an execution by one step. */
  lemma Extend(states: seq<World>, steps: seq<Step>, s: Step) returns (states': seq<World>, steps': seq<Step>)
    requires Execution(states, steps)
    requires Next(states[|steps|], s).Some?
    ensures Execution(states', steps') && states <= states'
    ensures |steps'| == |steps| + 1 && states'[|steps'|] == Next(states[|steps|], s).value
    ensures steps' == steps + [s]
  {
    states', steps' := states + [Next(states[|steps|], s).value], steps + [s];
  }

  /** An idle worker can pick this row up now. */
  predicate Available(w: World, k: nat) {
    w.row.Valid() && PhaseOf(w, k).Idle? && Consider(w.row, w.now, w.lease).Some?
  }

  /** The worker is in a provider call on an entity it may conclude. */
  predicate InCall(w: World, k: nat) {
    && PhaseOf(w, k).Calling? && !PhaseOf(w, k).accepted
    && PhaseOf(w, k).processing.status.Processing? && PhaseOf(w, k).processing.Valid()
  }

  /** The four steps of a worker picking up a row and calling the provider. */
  function PickUp(k: nat): seq<Step> {
    [Read(k), Prepare(k, None), Claim(k), BeginSend(k, "address")]
  }

  /** What a worker claims when it picks up the row. */
  function Picked(w: World): Outcome {
    match Consider(w.row, w.now, w.lease)
    case Some(n) => ClaimEntity(n, w.row.status, None, w.now)
    case None => Err(InvalidAttribute)
  }

  /** An available row is claimed as it stands, stamped with the present. */
  lemma AvailableIsClaimed(w: World, k: nat)
    requires Available(w, k)
    ensures Picked(w).Ok?
    ensures var p := Picked(w).value;
            var staleBefore := if w.row.status.Processing? then Some(w.now - w.lease) else None;
            && p.Valid() && p.status.Processing? && p.updatedAt == w.now
            && ClaimRow(w.row, p, w.row.status, staleBefore).Some?
            && var row := ClaimRow(w.row, p, w.row.status, staleBefore).value;
               row.Valid() && row.status.Processing? && row.updatedAt == w.now && row.sendAt == w.row.sendAt
  {
  }

  /** Take an idle worker into its provider call. */
  lemma StartSending(states: seq<World>, steps: seq<Step>, k: nat) returns (states': seq<World>, steps': seq<Step>)
    requires Execution(states, steps) && Available(states[|steps|], k)
    ensures Execution(states', steps') && states <= states' && steps' == steps + PickUp(k)
    ensures var w, v := states[|steps|], states'[|steps'|];
            && InCall(v, k) && v.row.Valid() && v.row.status.Processing?
            && v.row.updatedAt == w.now && v.row.sendAt == w.row.sendAt
            && (v.lease, v.now, v.attempts) == (w.lease, w.now, w.attempts)
            && v.phases == w.phases[k := v.phases[k]]
  {
    var w := states[|steps|];
    AvailableIsClaimed(w, k);
    var p := Picked(w).value;
    var staleBefore := if w.row.status.Processing? then Some(w.now - w.lease) else None;
    states', steps' := Extend(states, steps, Read(k));
    states', steps' := Extend(states', steps', Prepare(k, None));
    assert states'[|steps'|] == Enter(Enter(w, k, Considering(w.row, w.now)), k,
          Prepared(p, w.row.status, staleBefore));
    states', steps' := Extend(states', steps', Claim(k));
    states', steps' := Extend(states', steps', BeginSend(k, "address"));
  }

  /** A worker in its provider call hears that the message was accepted. */
  lemma Succeed(states: seq<World>, steps: seq<Step>, k: nat) returns (states': seq<World>, steps': seq<Step>)
    requires Execution(states, steps) && InCall(states[|steps|], k)
    ensures Execution(states', steps') && states <= states'
    ensures steps' == steps + [ProviderAccepts(k), FinishSend(k, Accepted)]
    ensures var w, v := states[|steps|], states'[|steps'|];
            && v.row.Valid() && v.row.status.Delivered?
            && Successes(v.attempts) == Successes(w.attempts) + 1
            && (v.lease, v.now) == (w.lease, w.now)
            && v.phases == w.phases[k := Idle]
  {
    var w := states[|steps|];
    SuccessesAppend(w.attempts, Logged(PhaseOf(w, k).processing, PhaseOf(w, k).address, Accepted));
    states', steps' := Extend(states, steps, ProviderAccepts(k));
    states', steps' := Extend(states', steps', FinishSend(k, Accepted));
    assert states'[|steps'|].phases == w.phases[k := Idle];
  }

  /** An idle worker delivers the row without interruption. */
  lemma Deliver(states: seq<World>, steps: seq<Step>, k: nat) returns (states': seq<World>, steps': seq<Step>)
    requires Execution(states, steps) && Available(states[|steps|], k)
    ensures Execution(states', steps') && states <= states'
    ensures steps' == steps + (PickUp(k) + [ProviderAccepts(k), FinishSend(k, Accepted)])
    ensures var w, v := states[|steps|], states'[|steps'|];
            && v.row.Valid() && Successes(v.attempts) == Successes(w.attempts) + 1
            && (v.lease, v.now) == (w.lease, w.now)
            && v.phases == w.phases[k := Idle]
  {
    states', steps' := StartSending(states, steps, k);
    states', steps' := Succeed(states', steps', k);
  }

  // ---- The witnesses ----

  /** A fresh row becomes due sooner or later. */
  lemma WaitUntilDue(w: World) returns (states: seq<World>, steps: seq<Step>)
    requires Initial(w)
    ensures Execution(states, steps) && |states| == 2 && states[0] == w
    ensures steps[0].Tick? && states[1] == w.(now := w.now + steps[0].elapsed)
    ensures forall k: nat :: Available(states[1], k)
  {
    var wait := if w.row.sendAt.Some? && w.row.sendAt.value > w.now then w.row.sendAt.value - w.now else 0;
    states, steps := Extend([w], [], Tick(wait));
  }

  /** A second worker takes over the row of one whose lease has run out in its call. */
  lemma TakeOver(states: seq<World>, steps: seq<Step>) returns (states': seq<World>, steps': seq<Step>)
    requires Execution(states, steps) && InCall(states[|steps|], 0) && PhaseOf(states[|steps|], 1).Idle?
    requires var w := states[|steps|];
             && w.row.Valid() && w.row.status.Processing? && w.row.updatedAt == w.now
             && (w.row.sendAt.Some? ==> w.row.sendAt.value <= w.now)
    requires forall s :: s in steps ==> !s.Reject?
    ensures Execution(states', steps') && states <= states' && forall s :: s in steps' ==> !s.Reject?
    ensures InCall(states'[|steps'|], 0) && InCall(states'[|steps'|], 1)
    ensures states'[|steps'|].attempts == states[|steps|].attempts
  {
    var w := states[|steps|];
    states', steps' := Extend(states, steps, Tick(if w.lease > 0 then w.lease else 0));
    states', steps' := StartSending(states', steps', 1);
    assert forall s :: s in PickUp(1) ==> !s.Reject?;
  }

  /** Two sends can both succeed when a lease is overrun: for any fresh row and any lease,
      without a single policy rejection. */
  lemma OverrunDeliversTwice(w: World) returns (states: seq<World>, steps: seq<Step>)
    requires Initial(w)
    ensures Execution(states, steps) && states[0] == w
    ensures RejectionsFresh(states, steps, |steps|)
    ensures Successes(states[|steps|].attempts) == 2
  {
    states, steps := WaitUntilDue(w);
    assert Available(states[1], 0);
    states, steps := StartSending(states, steps, 0);
    assert forall s :: s in PickUp(0) ==> !s.Reject?;
    states, steps := TakeOver(states, steps);
    states, steps := Succeed(states, steps, 0);
    states, steps := Succeed(states, steps, 1);
    forall j | 0 <= j < |steps| ensures !steps[j].Reject? {
      assert steps[j] in steps;
    }
  }

  /** A rejection is written whatever has become of the row, and makes it due again. */
  lemma RejectionLands(w: World, k: nat)
    requires PhaseOf(w, k).Considering? && PhaseOf(w, k).seen.Valid()
    requires Consider(PhaseOf(w, k).seen, PhaseOf(w, k).readAt, w.lease).Some?
    ensures Next(w, Reject(k, PostponeUntil(w.now))).Some?
    ensures var v := Next(w, Reject(k, PostponeUntil(w.now))).value;
            && Available(v, k) && v.attempts == w.attempts
  {
  }

  /** A worker reads the row, another delivers it, and the first then postpones it. */
  lemma PostponeDelivered(w: World) returns (states: seq<World>, steps: seq<Step>)
    requires Initial(w)
    ensures Execution(states, steps) && |steps| > 0 && states[0] == w
    ensures states[1].lease == w.lease && states[1].phases == map[] && forall s :: s in steps[1..] ==> !s.Tick?
    ensures Available(states[|steps|], 0) && Successes(states[|steps|].attempts) == 1
  {
    states, steps := WaitUntilDue(w);
    var due := states[1];
    assert Available(due, 0) && Available(due, 1);
    states, steps := Extend(states, steps, Read(0));
    states, steps := Deliver(states, steps, 1);
    RejectionLands(states[|steps|], 0);
    states, steps := Extend(states, steps, Reject(0, PostponeUntil(due.now)));
  }

  /** They can both succeed with every lease kept when a policy rejection is written over
      a row that was delivered since it was judged: for any fresh row and any lease that
      lasts at all. */
  lemma StaleRejectionDeliversTwice(w: World) returns (states: seq<World>, steps: seq<Step>)
    requires Initial(w) && w.lease > 0
    ensures Execution(states, steps) && states[0] == w
    ensures LeasesKept(states, |steps|)
    ensures Successes(states[|steps|].attempts) == 2
  {
    states, steps := PostponeDelivered(w);
    assert forall s :: s in PickUp(0) + [ProviderAccepts(0), FinishSend(0, Accepted)] ==> !s.Tick?;
    states, steps := Deliver(states, steps, 0);
    assert forall s :: s in steps[1..] ==> !s.Tick?;
    forall i: nat | i < |states| ensures !Overrun(states[i]) {
      forall j | 1 <= j < i ensures !steps[j].Tick? {
        assert steps[j] == steps[1..][j - 1];
      }
      if i > 0 {
        InstantsKeepLeases(states, steps, 1, i);
      }
    }
  }
}
