/** An execution showing what overlapping runs of one intake can do. */
module IntakeWitness {
  import opened Domain
  import opened NotificationIntake
  import opened IntakeProtocol
  import opened IntakeSafety
  import opened PlanAssembly
  import N = NotificationEntity

  lemma Extend(states: seq<World>, steps: seq<Step>, s: Step) returns (states': seq<World>, steps': seq<Step>)
    requires Execution(states, steps)
    requires Next(states[|steps|], s).Some?
    ensures Execution(states', steps') && states' == states + [Next(states[|steps|], s).value] && steps' == steps + [s]
  {
    states', steps' := states + [Next(states[|steps|], s).value], steps + [s];
  }

  /** A category that the client declared or that the constraints fall back on. */
  function CategoryOf(i: Intake): Category {
    if i.payload.category.Some? then i.payload.category.value else i.constraints.defaultCategory
  }

  /** A plan for a single channel. */
  function PlanFor(i: Intake, c: Channel): Plan {
    Plan(CategoryOf(i), FromDefault, i.payload.topic, None, [c], FromDefault, map[], None)
  }

  function PlainChild(w: World, i: Intake, c: Channel): N.Notification {
    var content :=
      if i.payload.content.Some? then i.payload.content.value else Content(None, "text", [], []);
    N.Notification(w.nextId, i.projectId, i.recipientId, i.transactionId, c, CategoryOf(i),
                   if i.payload.topic.Some? then Some(i.payload.topic.value.id) else None,
                   i.payload.templateId, Basis(i.payload, PlanFor(i, c)), content, N.Pending, At(i.payload.sendAt),
                   None, None, None, None, w.now)
  }

  /** A valid request that leaves the choice of channels to the model. */
  predicate Open(i: Intake) {
    i.payload.Valid() && Compatible(i.payload, i.constraints) && i.constraints.mode.ByModel?
  }

  lemma PlainChildFits(w: World, i: Intake, c: Channel)
    requires Open(i) && i.plan == Some(PlanFor(i, c)) && c !in Channels(w.children)
    ensures BatchFor(w, i, [PlainChild(w, i, c)]) && Channels([PlainChild(w, i, c)]) == [c]
  {
    assert Outstanding([c], Elements(Channels(w.children)))
           == [c] + Outstanding([c][1..], Elements(Channels(w.children)));
  }

  /** A worker that holds no plan yet, on a transaction without a child for the channel,
      can bring the intake to COMPLETED with that channel as its plan. */
  lemma Finish(states: seq<World>, steps: seq<Step>, k: nat, c: Channel)
      returns (states': seq<World>, steps': seq<Step>)
    requires Execution(states, steps)
    requires var w := states[|steps|];
             && PhaseOf(w, k).Claimed? && PhaseOf(w, k).intake.Valid() && PhaseOf(w, k).intake.status.Processing?
             && Open(PhaseOf(w, k).intake) && c in PhaseOf(w, k).intake.constraints.feasible
             && Distinct(Channels(w.children)) && c !in Channels(w.children)
    ensures Execution(states', steps') && |states'| == |states| + 3 && states <= states' && steps <= steps'
    ensures var w, stored, end := states[|steps|], states'[|states|], states'[|steps'|];
            var i := PhaseOf(w, k).intake;
            && stored.row == i.(plan := Some(PlanFor(i, c)))
            && end.row.status.Completed? && end.row.plan == Some(PlanFor(i, c))
            && Channels(end.children) == Channels(w.children) + [c]
            && forall j: nat :: j != k ==> PhaseOf(end, j) == PhaseOf(w, j)
  {
    var w := states[|steps|];
    var i := PhaseOf(w, k).intake;
    states', steps' := Extend(states, steps, StorePlan(k, PlanFor(i, c)));
    var planned := states'[|steps'|];
    var batch := [PlainChild(planned, planned.phases[k].intake, c)];
    PlainChildFits(planned, planned.phases[k].intake, c);
    states', steps' := Extend(states', steps', BuildBatch(k, batch));
    ChannelsOfBoth(w.children, batch);
    states', steps' := Extend(states', steps', SaveBatch(k));
  }

  /** A worker that outlives its lease can overwrite a COMPLETED intake: its plan changes,
      it goes back to PROCESSING, and it ends COMPLETED with children its plan does not
      name.  So the finality of plans and statuses does need runs not to overlap.  This can
      happen to every intake that leaves the model a choice of channels. */
  lemma OverlapOverwrites(w: World, c1: Channel, c2: Channel) returns (states: seq<World>, steps: seq<Step>)
    requires Initial(w) && w.lease >= 0 && w.maxAttempts >= 2
    requires Open(w.row) && c1 != c2 && c1 in w.row.constraints.feasible && c2 in w.row.constraints.feasible
    ensures Execution(states, steps) && states[0] == w && |states| == 10
    ensures states[6].row.status.Completed? && states[6].row.plan == Some(PlanFor(w.row, c1))
    ensures states[7].row.status.Processing? && states[7].row.plan == Some(PlanFor(w.row, c2))
    ensures states[9].row.status.Completed? && states[9].row.plan == Some(PlanFor(w.row, c2))
            && Channels(states[9].children) == [c1, c2]
  {
    states, steps := [w], [];
    states, steps := Extend(states, steps, TakeLease(0));
    states, steps := Extend(states, steps, Tick(w.lease));
    states, steps := Extend(states, steps, TakeLease(1));
    states, steps := Finish(states, steps, 1, c1);
    assert Channels(states[6].children) == [c1];
    states, steps := Finish(states, steps, 0, c2);
  }
}
