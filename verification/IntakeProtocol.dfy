/** Workers expanding one intake: claim it, store a plan, build children, and save them
    with their announcements, in separate transactions.  Leases may run out and workers
    may crash at any point; saving the intake overwrites the whole row. */
module IntakeProtocol {
  import opened Domain
  import opened NotificationIntake
  import PlanAssembly
  import N = NotificationEntity
  import Outbox

  datatype Phase =
    | Idle
    | Claimed(intake: Intake)
    | Planned(intake: Intake)
    | Built(intake: Intake, batch: seq<N.Notification>)
    | Failing(intake: Intake, reason: string)

  /** `granted` counts the claims that passed the attempt gate; ids below `nextId` are taken. */
  datatype World = World(
    lease: int,
    maxAttempts: nat,
    now: int,
    row: Intake,
    children: seq<N.Notification>,
    dispatches: seq<Outbox.Entry>,
    nextId: nat,
    granted: nat,
    phases: map<nat, Phase>)

  datatype Step =
    | TakeLease(worker: nat)
    | StorePlan(worker: nat, plan: PlanAssembly.Plan)
    | BuildBatch(worker: nat, batch: seq<N.Notification>)
    | SaveBatch(worker: nat)
    | Abandon(worker: nat, reason: string)
    | RecordFailure(worker: nat)
    | Crash(worker: nat)
    | Tick(elapsed: nat)

  function PhaseOf(w: World, k: nat): Phase {
    if k in w.phases then w.phases[k] else Idle
  }

  function Enter(w: World, k: nat, p: Phase): World {
    w.(phases := w.phases[k := p])
  }

  function Channels(children: seq<N.Notification>): seq<Channel> {
    seq(|children|, i requires 0 <= i < |children| => children[i].channel)
  }

  /** The plan's channels that have no child yet, in the plan's order. */
  function Outstanding(channels: seq<Channel>, existing: set<Channel>): seq<Channel> {
    if channels == [] then []
    else (if channels[0] in existing then [] else [channels[0]]) + Outstanding(channels[1..], existing)
  }

  /** A batch of new children for exactly the outstanding channels, with fresh ids. */
  predicate BatchFor(w: World, i: Intake, batch: seq<N.Notification>) {
    && i.plan.Some?
    && Channels(batch) == Outstanding(i.plan.value.channels, Elements(Channels(w.children)))
    && forall j :: 0 <= j < |batch| ==>
         && batch[j].id == w.nextId + j
         && Inherits(batch[j], i, i.plan.value)
         && (i.payload.templateId.None? ==> i.payload.content == Some(batch[j].content))
         && batch[j].status in {N.Pending, N.Postponed, N.Suppressed}
  }

  /** The announcements of the children that are to be delivered, in order. */
  function Announcements(children: seq<N.Notification>): seq<Outbox.Entry> {
    if children == [] then [] else
    var last := children[|children| - 1];
    Announcements(children[..|children| - 1]) + if Announced(last) then [Outbox.DispatchEntry(last)] else []
  }

  /** The table accepts one row per channel of the transaction; otherwise nothing is stored. */
  predicate Insertable(children: seq<N.Notification>, batch: seq<N.Notification>) {
    Distinct(Channels(children + batch))
  }

  function Next(w: World, s: Step): Option<World> {
    match s
    case TakeLease(k) =>
      if !PhaseOf(w, k).Idle? then None else
      (match Claim(w.row, w.now, w.lease)
       case Err(_) => None
       case Ok(claimed) =>
         if claimed.attempts > w.maxAttempts
         then Some(Enter(w, k, Failing(claimed, "too many attempts")).(row := claimed))
         else Some(Enter(w, k, if claimed.plan.None? then Claimed(claimed) else Planned(claimed))
                   .(row := claimed, granted := w.granted + 1)))
    case StorePlan(k, plan) =>
      (match PhaseOf(w, k)
       case Claimed(i) =>
         if !PlanAssembly.Keeps(plan, i.payload, i.constraints, w.now) then None else
         (match WithPlan(i, plan)
          case Ok(planned) => Some(Enter(w, k, Planned(planned)).(row := planned))
          case Err(_) => None)
       case _ => None)
    case BuildBatch(k, batch) =>
      (match PhaseOf(w, k)
       case Planned(i) =>
         if !BatchFor(w, i, batch) then None
         else Some(Enter(w, k, Built(i, batch)).(nextId := w.nextId + |batch|))
       case _ => None)
    case SaveBatch(k) =>
      (match PhaseOf(w, k)
       case Built(i, batch) =>
         if !Insertable(w.children, batch) then Some(Enter(w, k, Idle)) else
         (match Complete(i, w.now)
          case Ok(done) =>
            Some(Enter(w, k, Idle).(row := done, children := w.children + batch,
                                    dispatches := w.dispatches + Announcements(batch)))
          case Err(_) => None)
       case _ => None)
    case Abandon(k, reason) =>
      (match PhaseOf(w, k)
       case Idle => None
       case Failing(_, _) => None
       case p => if reason == "" then None else Some(Enter(w, k, Failing(p.intake, reason))))
    case RecordFailure(k) =>
      (match PhaseOf(w, k)
       case Failing(_, reason) =>
         if w.row.Finished() then Some(Enter(w, k, Idle)) else
         (match Fail(w.row, reason)
          case Ok(failed) => Some(Enter(w, k, Idle).(row := failed))
          case Err(_) => None)
       case _ => None)
    case Crash(k) => Some(Enter(w, k, Idle))
    case Tick(elapsed) => Some(w.(now := w.now + elapsed))
  }

  function Run(w: World, steps: seq<Step>): Option<World>
    decreases |steps|
  {
    if steps == [] then Some(w) else
    match Next(w, steps[0])
    case Some(v) => Run(v, steps[1..])
    case None => None
  }

  /** A freshly accepted intake. */
  predicate Initial(w: World) {
    && w.row.Valid() && w.row.status.Received? && w.row.attempts == 0
    && w.children == [] && w.dispatches == [] && w.granted == 0 && w.phases == map[]
  }

  ghost predicate Execution(states: seq<World>, steps: seq<Step>) {
    && |states| == |steps| + 1
    && Initial(states[0])
    && forall i :: 0 <= i < |steps| ==> Next(states[i], steps[i]) == Some(states[i + 1])
  }

  /** The worker has claimed the intake and is not done with it. */
  predicate Active(w: World, k: nat) {
    !PhaseOf(w, k).Idle?
  }

  /** No lease is granted while another worker is still active. */
  ghost predicate NeverOverlapping(states: seq<World>, steps: seq<Step>, i: nat)
    requires |states| == |steps| + 1
  {
    forall j :: 0 <= j < i <= |steps| && steps[j].TakeLease? ==> NobodyActive(states[j])
  }

  ghost predicate NobodyActive(w: World) {
    forall k: nat :: !Active(w, k)
  }

  /** Every active worker is within the lease it took. */
  ghost predicate WithinLease(w: World) {
    forall k: nat :: Active(w, k) && PhaseOf(w, k).intake.claimedAt.Some? ==>
      w.now < PhaseOf(w, k).intake.claimedAt.value + w.lease
  }
}
