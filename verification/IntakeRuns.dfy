/** The runs of the intake worker as runs of the intake protocol, and the outcome of a run
    that nobody interferes with. */
module IntakeRuns {
  import opened Domain
  import opened NotificationIntake
  import opened IntakeProtocol
  import opened IntakeProcessor
  import opened PlanAssembly
  import IntakeSafety
  import N = NotificationEntity

  // ---- A run is a run of the protocol ----

  /** The protocol's view of a snapshot. */
  predicate Shows(w: World, s: Snapshot) {
    w.row == s.row && w.children == s.children && w.dispatches == s.dispatches
  }

  /** The state after others have committed, up to when ids are handed out from `nextId` on. */
  function Disturbed(w: World, rival: Option<Rival>, nextId: nat): World {
    var s := Commit(Snapshot(w.row, w.children, w.dispatches), rival);
    w.(row := s.row, children := s.children, dispatches := s.dispatches, nextId := nextId)
  }

  /** The phase right after the claim. */
  function ClaimedPhase(claimed: Intake, maxAttempts: nat): Phase {
    if claimed.attempts > maxAttempts then Failing(claimed, TOO_MANY_ATTEMPTS)
    else if claimed.plan.None? then Claimed(claimed) else Planned(claimed)
  }

  /** The phase in which the run reaches its last transaction. */
  function LastPhase(row: Intake, outcome: BuildOutcome): Phase {
    if outcome.Ok? then Built(row, outcome.value) else Failing(row, outcome.error)
  }

  /** A fresh plan is stored in a transaction of its own. */
  function PlanSteps(claimed: Intake, prepared: Result<Intake, string>): seq<Step> {
    if prepared.Ok? && prepared.value.plan.Some? && claimed.plan.None?
    then [StorePlan(0, prepared.value.plan.value)] else []
  }

  /** The children are built, or the run gives up; too many attempts end it earlier. */
  function BuildSteps(overdrawn: bool, outcome: BuildOutcome): seq<Step> {
    if overdrawn then [] else [if outcome.Ok? then BuildBatch(0, outcome.value) else Abandon(0, outcome.error)]
  }

  /** The last transaction: save the children, or record the failure. */
  function LastStep(outcome: BuildOutcome, inp: Inputs): Step {
    if outcome.Ok? then SaveBatch(0) else if inp.lockedAtFailure then Crash(0) else RecordFailure(0)
  }

  lemma LeaseRuns(w: World, claimed: Intake)
    requires PhaseOf(w, 0).Idle? && Claim(w.row, w.now, w.lease) == Ok(claimed)
    ensures Next(w, TakeLease(0)).Some?
    ensures var v := Next(w, TakeLease(0)).value;
            && Shows(v, Snapshot(claimed, w.children, w.dispatches)) && v.now == w.now
            && PhaseOf(v, 0) == ClaimedPhase(claimed, w.maxAttempts)
  {
  }

  lemma PlanRuns(w: World, claimed: Intake, maxAttempts: nat, inp: Inputs, s: Snapshot)
    requires claimed.Valid() && claimed.status.Processing? && (claimed.plan.Some? ==> claimed.plan.value.Valid())
    requires Compatible(claimed.payload, claimed.constraints) && w.now == inp.planAt
    requires Shows(w, s) && PhaseOf(w, 0) == ClaimedPhase(claimed, maxAttempts)
    ensures var prepared := Prepared(claimed, maxAttempts, inp);
            var v := Run(w, PlanSteps(claimed, prepared));
            && v.Some? && Shows(v.value, Planning(s, claimed, prepared)) && v.value.now == w.now
            && (prepared.Ok? ==> PhaseOf(v.value, 0) == Planned(prepared.value) && prepared.value.plan.Some?)
            && (prepared.Err? ==> PhaseOf(v.value, 0) == ClaimedPhase(claimed, maxAttempts))
  {
    DecidedPlansKeep(claimed.payload, claimed.constraints, inp.answer, inp.topics, inp.planAt);
  }

  lemma BuildRuns(w: World, claimed: Intake, maxAttempts: nat, inp: Inputs)
    requires claimed.payload.Valid() && w.nextId == inp.nextId
    requires var prepared := Prepared(claimed, maxAttempts, inp);
             if prepared.Ok? then PhaseOf(w, 0) == Planned(prepared.value) && prepared.value.plan.Some?
             else PhaseOf(w, 0) == ClaimedPhase(claimed, maxAttempts)
    ensures var prepared := Prepared(claimed, maxAttempts, inp);
            var outcome := BatchOf(prepared, w.children, inp);
            var v := Run(w, BuildSteps(claimed.attempts > maxAttempts, outcome));
            && v.Some? && Shows(v.value, Snapshot(w.row, w.children, w.dispatches)) && v.value.now == w.now
            && PhaseOf(v.value, 0) == LastPhase(InHand(claimed, prepared), outcome)
  {
    var prepared := Prepared(claimed, maxAttempts, inp);
    if prepared.Ok? {
      BuildFits(w, prepared.value, inp);
    }
  }

  lemma BuildFits(w: World, i: Intake, inp: Inputs)
    requires i.plan.Some? && i.payload.Valid() && w.nextId == inp.nextId
    ensures BatchOf(Ok(i), w.children, inp).Ok? ==> BatchFor(w, i, BatchOf(Ok(i), w.children, inp).value)
    ensures BatchOf(Ok(i), w.children, inp).Err? ==> BatchOf(Ok(i), w.children, inp).error != ""
  {
    BuildsTheOutstanding(i, i.plan.value, i.plan.value.channels, Elements(Channels(w.children)), inp.nextId, inp);
    var outcome := BatchOf(Ok(i), w.children, inp);
    if outcome.Ok? {
      forall j | 0 <= j < |outcome.value|
        ensures WellBuiltChild(outcome.value[j], i, i.plan.value, inp.nextId + j, inp)
      {
      }
    }
  }

  lemma LastStepRuns(w: World, row: Intake, outcome: BuildOutcome, found: Snapshot, inp: Inputs)
    requires Shows(w, found) && w.now == inp.doneAt && PhaseOf(w, 0) == LastPhase(row, outcome)
    requires row.Valid() && row.status.Processing? && found.row.Valid()
    requires if outcome.Ok? then row.plan.Some? else outcome.error != ""
    ensures Next(w, LastStep(outcome, inp)).Some?
    ensures Shows(Next(w, LastStep(outcome, inp)).value, Concluded(found, row, outcome, inp).0)
  {
  }

  /** The rivals write valid rows. */
  predicate ValidRivals(rivals: Rivals) {
    && (rivals.afterClaim.Some? ==> rivals.afterClaim.value.row.Valid())
    && (rivals.afterPlan.Some? ==> rivals.afterPlan.value.row.Valid())
    && (rivals.afterBuild.Some? ==> rivals.afterBuild.value.row.Valid())
  }

  /** From the claim up to the point where the children are built. */
  lemma FirstTransactionsRun(w: World, claimed: Intake, rivals: Rivals, inp: Inputs) returns (w1: World, w2: World)
    requires PhaseOf(w, 0).Idle? && Claim(w.row, w.now, w.lease) == Ok(claimed)
    requires claimed.Valid() && (claimed.plan.Some? ==> claimed.plan.value.Valid())
    requires Compatible(claimed.payload, claimed.constraints)
    ensures Next(w, TakeLease(0)) == Some(w1)
    ensures var prepared := Prepared(claimed, w.maxAttempts, inp);
            && Run(Disturbed(w1, rivals.afterClaim, w.nextId).(now := inp.planAt), PlanSteps(claimed, prepared))
               == Some(w2)
            && Shows(Disturbed(w2, rivals.afterPlan, inp.nextId),
                     BeforeBuild(claimed, Snapshot(claimed, w.children, w.dispatches), w.maxAttempts, rivals, inp))
            && (if prepared.Ok? then PhaseOf(w2, 0) == Planned(prepared.value) && prepared.value.plan.Some?
                else PhaseOf(w2, 0) == ClaimedPhase(claimed, w.maxAttempts))
  {
    LeaseRuns(w, claimed);
    w1 := Next(w, TakeLease(0)).value;
    var d1 := Disturbed(w1, rivals.afterClaim, w.nextId).(now := inp.planAt);
    var s1 := Commit(Snapshot(claimed, w.children, w.dispatches), rivals.afterClaim);
    PlanRuns(d1, claimed, w.maxAttempts, inp, s1);
    w2 := Run(d1, PlanSteps(claimed, Prepared(claimed, w.maxAttempts, inp))).value;
  }

  /** Building the children, and the last transaction. */
  lemma LastTransactionRuns(d: World, claimed: Intake, maxAttempts: nat, before: Snapshot, rivals: Rivals, inp: Inputs)
    returns (w3: World, w4: World)
    requires claimed.Valid() && claimed.status.Processing? && claimed.payload.Valid() && d.nextId == inp.nextId
    requires Shows(d, before) && before.row.Valid() && ValidRivals(rivals)
    requires var prepared := Prepared(claimed, maxAttempts, inp);
             if prepared.Ok? then PhaseOf(d, 0) == Planned(prepared.value) && prepared.value.plan.Some?
             else PhaseOf(d, 0) == ClaimedPhase(claimed, maxAttempts)
    ensures var prepared := Prepared(claimed, maxAttempts, inp);
            var outcome := BatchOf(prepared, before.children, inp);
            && Run(d, BuildSteps(claimed.attempts > maxAttempts, outcome)) == Some(w3)
            && Next(Disturbed(w3, rivals.afterBuild, w3.nextId).(now := inp.doneAt), LastStep(outcome, inp)) == Some(w4)
            && Shows(w4, Concluded(Commit(before, rivals.afterBuild), InHand(claimed, prepared), outcome, inp).0)
  {
    var prepared := Prepared(claimed, maxAttempts, inp);
    PreparedIsSound(claimed, maxAttempts, inp);
    BuildRuns(d, claimed, maxAttempts, inp);
    var outcome := BatchOf(prepared, before.children, inp);
    BatchIsSound(prepared, before.children, inp);
    w3 := Run(d, BuildSteps(claimed.attempts > maxAttempts, outcome)).value;
    var d3 := Disturbed(w3, rivals.afterBuild, w3.nextId).(now := inp.doneAt);
    LastStepRuns(d3, InHand(claimed, prepared), outcome, Commit(before, rivals.afterBuild), inp);
    w4 := Next(d3, LastStep(outcome, inp)).value;
  }

  lemma BeforeBuildIsValid(claimed: Intake, s: Snapshot, maxAttempts: nat, rivals: Rivals, inp: Inputs)
    requires claimed.Valid() && claimed.status.Processing? && s.row.Valid() && ValidRivals(rivals)
    ensures BeforeBuild(claimed, s, maxAttempts, rivals, inp).row.Valid()
  {
    PreparedIsSound(claimed, maxAttempts, inp);
  }

  /** A run that finds the intake claimable is a run of the protocol, whatever others commit
      in between: it takes the lease; the clock moves on and it may store a plan; it builds
      its children or gives up; the clock moves on; and its last transaction leaves the
      effect of the run. */
  lemma ProcessingIsAProtocolRun(w: World, rivals: Rivals, inp: Inputs)
      returns (w1: World, w2: World, w3: World, w4: World)
    requires w.now == inp.claimAt && PhaseOf(w, 0).Idle? && w.row.Claimable(inp.claimAt, w.lease) && ValidRivals(rivals)
    requires w.row.Valid() && w.row.payload.Valid() && (w.row.plan.Some? ==> w.row.plan.value.Valid())
    requires Compatible(w.row.payload, w.row.constraints) && inp.claimAt <= inp.planAt <= inp.doneAt
    ensures var s := Snapshot(w.row, w.children, w.dispatches);
            var claimed := Claim(w.row, inp.claimAt, w.lease);
            claimed.Ok?
            && var prepared := Prepared(claimed.value, w.maxAttempts, inp);
               var before := BeforeBuild(claimed.value, s.(row := claimed.value), w.maxAttempts, rivals, inp);
               var outcome := BatchOf(prepared, before.children, inp);
               && Next(w, TakeLease(0)) == Some(w1)
               && Run(Disturbed(w1, rivals.afterClaim, w.nextId).(now := inp.planAt),
                      PlanSteps(claimed.value, prepared)) == Some(w2)
               && Run(Disturbed(w2, rivals.afterPlan, inp.nextId),
                      BuildSteps(claimed.value.attempts > w.maxAttempts, outcome)) == Some(w3)
               && Next(Disturbed(w3, rivals.afterBuild, w3.nextId).(now := inp.doneAt), LastStep(outcome, inp))
                  == Some(w4)
               && Shows(w4, Effect(w.lease, w.maxAttempts, s, rivals, inp).0)
  {
    var claimed := Claim(w.row, inp.claimAt, w.lease).value;
    var s := Snapshot(claimed, w.children, w.dispatches);
    w1, w2 := FirstTransactionsRun(w, claimed, rivals, inp);
    BeforeBuildIsValid(claimed, s, w.maxAttempts, rivals, inp);
    w3, w4 := LastTransactionRuns(Disturbed(w2, rivals.afterPlan, inp.nextId), claimed, w.maxAttempts,
                                  BeforeBuild(claimed, s, w.maxAttempts, rivals, inp), rivals, inp);
  }

  // ---- A run nobody interferes with ----

  lemma {:induction false} OutstandingIsDistinct(channels: seq<Channel>, existing: set<Channel>)
    requires Distinct(channels)
    ensures Distinct(Outstanding(channels, existing))
  {
    if channels == [] {
    } else {
      OutstandingIsDistinct(channels[1..], existing);
      IntakeSafety.OutstandingCovers(channels[1..], existing, channels[0]);
    }
  }

  /** A batch for the outstanding channels of a valid plan is never refused, and leaves a
      child for every channel of the plan. */
  lemma OutstandingIsInsertable(children: seq<N.Notification>, batch: seq<N.Notification>, channels: seq<Channel>)
    requires Distinct(Channels(children)) && Distinct(channels)
    requires Channels(batch) == Outstanding(channels, Elements(Channels(children)))
    ensures Insertable(children, batch)
    ensures forall c :: c in channels ==> c in Channels(children + batch)
  {
    OutstandingIsDistinct(channels, Elements(Channels(children)));
    IntakeSafety.ChannelsOfBoth(children, batch);
    forall c ensures c in Channels(batch) <==> c in channels && c !in Channels(children) {
      IntakeSafety.OutstandingCovers(channels, Elements(Channels(children)), c);
    }
    forall i, j | 0 <= i < j < |Channels(children + batch)|
      ensures Channels(children + batch)[i] != Channels(children + batch)[j]
    {
      if i < |children| <= j {
        assert Channels(batch)[j - |children|] in Channels(batch) && Channels(children)[i] in Channels(children);
      }
    }
  }

  /** What an intake needs to be completed: an attempt left, its recipient, a plan, and
      content for every channel that has no child yet. */
  predicate Completable(claimed: Intake, children: seq<N.Notification>, maxAttempts: nat, inp: Inputs) {
    && claimed.attempts <= maxAttempts
    && Decided(claimed, inp).Ok?
    && var plan := Decided(claimed, inp).value.plan;
       && plan.Some?
       && forall c :: c in Outstanding(plan.value.channels, Elements(Channels(children))) ==>
            inp.ContentOf(claimed.payload, c).Some?
  }

  /** A run gets as far as a batch exactly if the intake is completable. */
  lemma BatchWhenCompletable(claimed: Intake, children: seq<N.Notification>, maxAttempts: nat, inp: Inputs)
    requires claimed.Valid() && claimed.status.Processing? && claimed.payload.Valid()
    requires (claimed.plan.Some? ==> claimed.plan.value.Valid()) && Distinct(Channels(children))
    ensures var prepared := Prepared(claimed, maxAttempts, inp);
            var outcome := BatchOf(prepared, children, inp);
            && (outcome.Ok? <==> Completable(claimed, children, maxAttempts, inp))
            && (outcome.Err? ==> outcome.error != "")
            && (outcome.Ok? ==>
                  var plan := prepared.value.plan.value;
                  && Decided(claimed, inp) == Ok(prepared.value)
                  && Insertable(children, outcome.value)
                  && Channels(outcome.value) == Outstanding(plan.channels, Elements(Channels(children)))
                  && forall c :: c in plan.channels ==> c in Channels(children + outcome.value))
  {
    PreparedIsSound(claimed, maxAttempts, inp);
    if Decided(claimed, inp).Ok? && Decided(claimed, inp).value.plan.Some? {
      var row := Decided(claimed, inp).value;
      var plan := row.plan.value;
      BuildsTheOutstanding(row, plan, plan.channels, Elements(Channels(children)), inp.nextId, inp);
      var built := BuildAll(row, plan, plan.channels, Elements(Channels(children)), inp.nextId, inp);
      if built.Ok? {
        OutstandingIsInsertable(children, built.value, plan.channels);
      }
    }
  }

  /** The effect of a run when nobody else commits anything. */
  lemma UndisturbedEffect(lease: int, maxAttempts: nat, s: Snapshot, inp: Inputs, claimed: Intake)
    requires Claim(s.row, inp.claimAt, lease) == Ok(claimed)
    ensures var prepared := Prepared(claimed, maxAttempts, inp);
            Effect(lease, maxAttempts, s, NOBODY, inp)
            == Concluded(Planning(s.(row := claimed), claimed, prepared), InHand(claimed, prepared),
                         BatchOf(prepared, s.children, inp), inp)
  {
  }

  /** How it ends, given the plan and the batch it came to. */
  lemma UndisturbedEnd(lease: int, maxAttempts: nat, s: Snapshot, inp: Inputs, claimed: Intake, row: Intake,
      outcome: BuildOutcome)
    requires Claim(s.row, inp.claimAt, lease) == Ok(claimed) && claimed.Valid() && claimed.status.Processing?
    requires row == InHand(claimed, Prepared(claimed, maxAttempts, inp)) && !inp.lockedAtFailure
    requires outcome == BatchOf(Prepared(claimed, maxAttempts, inp), s.children, inp)
    requires if outcome.Ok? then row.plan.Some? && Insertable(s.children, outcome.value) else outcome.error != ""
    ensures Effect(lease, maxAttempts, s, NOBODY, inp)
            == (match outcome
                case Ok(batch) =>
                  Snapshot(row.(status := NotificationIntake.Completed, completedAt := Some(inp.doneAt)),
                           s.children + batch, s.dispatches + Announcements(batch))
                case Err(reason) =>
                  Snapshot(row.(status := NotificationIntake.Failed, failureReason := Some(reason)),
                           s.children, s.dispatches), false)
  {
    UndisturbedEffect(lease, maxAttempts, s, inp, claimed);
    PreparedIsSound(claimed, maxAttempts, inp);
    assert Planning(s.(row := claimed), claimed, Prepared(claimed, maxAttempts, inp)) == s.(row := row);
  }

  /** Undisturbed, a claimed intake always ends: COMPLETED exactly if it is completable, with
      a child for every channel of its plan and the announcements of the new ones, and
      FAILED otherwise, with no child and no announcement added.  A stored plan is kept. */
  lemma UndisturbedRunsEnd(lease: int, maxAttempts: nat, s: Snapshot, inp: Inputs)
    requires s.row.Valid() && s.row.payload.Valid() && s.row.Claimable(inp.claimAt, lease) && !inp.lockedAtFailure
    requires (s.row.plan.Some? ==> s.row.plan.value.Valid()) && Distinct(Channels(s.children))
    ensures var claimed := Claim(s.row, inp.claimAt, lease);
            var (end, violation) := Effect(lease, maxAttempts, s, NOBODY, inp);
            && claimed.Ok? && !violation
            && (s.row.plan.Some? ==> end.row.plan == s.row.plan)
            && (claimed.value.attempts <= maxAttempts && Decided(claimed.value, inp).Ok? ==>
                  end.row.plan == Decided(claimed.value, inp).value.plan)
            && (if Completable(claimed.value, s.children, maxAttempts, inp) then
                  && end.row == s.row.(status := Completed, plan := end.row.plan, completedAt := Some(inp.doneAt),
                                       attempts := s.row.attempts + 1, claimedAt := Some(inp.claimAt))
                  && end.row.plan == Decided(claimed.value, inp).value.plan
                  && s.children <= end.children
                  && end.dispatches == s.dispatches + Announcements(end.children[|s.children|..])
                  && Channels(end.children[|s.children|..])
                     == Outstanding(end.row.plan.value.channels, Elements(Channels(s.children)))
                  && forall c :: c in end.row.plan.value.channels ==> c in Channels(end.children)
                else
                  && end.row == s.row.(status := Failed, plan := end.row.plan, failureReason := end.row.failureReason,
                                       attempts := s.row.attempts + 1, claimedAt := Some(inp.claimAt))
                  && end.children == s.children && end.dispatches == s.dispatches)
  {
    var claimed := Claim(s.row, inp.claimAt, lease).value;
    PreparedIsSound(claimed, maxAttempts, inp);
    BatchWhenCompletable(claimed, s.children, maxAttempts, inp);
    var row, outcome := InHand(claimed, Prepared(claimed, maxAttempts, inp)),
          BatchOf(Prepared(claimed, maxAttempts, inp), s.children, inp);
    UndisturbedEnd(lease, maxAttempts, s, inp, claimed, row, outcome);
    if outcome.Ok? {
      assert (s.children + outcome.value)[|s.children|..] == outcome.value;
    }
  }
}
