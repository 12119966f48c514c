/** The delivery protocol of one notification row: any number of workers read it,
    claim it by a conditional update, call the provider and overwrite it with the
    outcome, while cancellations and crashes happen at any point.  A step is one
    transaction, one clock reading or one provider call boundary. */
module DeliveryProtocol {
  import opened Domain
  import opened NotificationEntity

  datatype Attempt = Attempt(notificationId: nat, success: bool, address: Option<string>, error: Option<string>)

  // ---- What the repository's conditional updates do to a row ----

  /** `claim_for_delivery`: the row as updated, or None when no row matches. */
  function ClaimRow(row: Notification, claim: Notification, expected: Status,
      staleBefore: Option<int>): Option<Notification>
  {
    if && row.id == claim.id
       && row.projectId == claim.projectId
       && row.status == expected
       && (expected.Processing? ==> staleBefore.Some? && row.updatedAt <= staleBefore.value)
    then Some(row.(status := claim.status, content := claim.content, updatedAt := claim.updatedAt))
    else None
  }

  /** `cancel_pending`: the row as updated, or None when no row matches. */
  function CancelRow(row: Notification, cancelled: Notification): Option<Notification> {
    if row.id == cancelled.id && row.projectId == cancelled.projectId && row.status.Pending?
    then Some(row.(status := cancelled.status, cancellationReason := cancelled.cancellationReason,
                   updatedAt := cancelled.updatedAt))
    else None
  }

  // ---- What a worker decides from the row it read ----

  /** The notification a worker goes on with, or None when it leaves the row alone:
      leased, not yet due, or already finished. */
  function Consider(seen: Notification, now: int, lease: int): Option<Notification> {
    var next :=
      if seen.status.Processing? then
        if seen.updatedAt > now - lease then None else Some(seen)
      else if seen.status.Postponed? then
        if seen.sendAt.None? || seen.sendAt.value > now then None
        else match Apply(seen, Resume, now) case Ok(n) => Some(n) case Err(_) => None
      else if seen.status.Pending? then Some(seen)
      else None;
    if next.Some? && next.value.sendAt.Some? && next.value.sendAt.value > now then None else next
  }

  /** What is to be delivered now: it is unfinished, its send time has come if it has one (a
      postponed row must have one), and no lease on it is running. */
  predicate DueForDelivery(row: Notification, now: int, lease: int) {
    && row.status in {Pending, Postponed, Processing}
    && (row.sendAt.Some? ==> row.sendAt.value <= now)
    && (row.status.Postponed? ==> row.sendAt.Some?)
    && (row.status.Processing? ==> row.updatedAt + lease <= now)
  }

  /** A worker goes on with a row exactly when it is due, and then as it stands, except that
      a postponed one becomes PENDING again. */
  lemma TakenUpExactlyWhenDue(seen: Notification, now: int, lease: int)
    requires seen.Valid()
    ensures Consider(seen, now, lease).Some? <==> DueForDelivery(seen, now, lease)
    ensures DueForDelivery(seen, now, lease) ==>
              Consider(seen, now, lease)
              == Some(if seen.status.Postponed? then seen.(status := Pending, updatedAt := now) else seen)
  {
  }

  /** The entity the claim writes; `rendered` replaces the content of a templated one. */
  function ClaimEntity(n: Notification, expected: Status, rendered: Option<Content>, now: int): Outcome {
    var filled := if rendered.Some? && n.templateId.Some? then Apply(n, WithContent(rendered.value), now) else Ok(n);
    if filled.Err? then filled
    else Apply(filled.value, if expected.Processing? then ReclaimProcessing else MarkProcessing, now)
  }

  datatype Verdict = PostponeUntil(resumeAt: int) | SuppressFor(reason: string)

  /** What a policy rejection turns the notification into. */
  function Rejected(n: Notification, verdict: Verdict, now: int): Outcome {
    match verdict
    case PostponeUntil(at) => Apply(n, MarkPostponed(at), now)
    case SuppressFor(reason) => Apply(n, MarkSuppressed(if reason == "" then "policy violation" else reason), now)
  }

  datatype SendResult = Accepted | Refused(error: string) | Raised(error: string)

  function NoAddressError(n: Notification): string {
    "no " + ChannelValue(n.channel) + " address for recipient"
  }

  function RefusalError(error: string): string {
    if error == "" then "delivery failed" else error
  }

  /** The transition an answer of the provider leads to. */
  function Conclusion(result: SendResult): Transition {
    match result
    case Accepted => MarkDelivered
    case Refused(error) => MarkFailed(RefusalError(error))
    case Raised(_) => RetryDelivery
  }

  /** The attempt an answer of the provider is logged as. */
  function Logged(n: Notification, address: string, result: SendResult): Attempt {
    match result
    case Accepted => Attempt(n.id, true, Some(address), None)
    case Refused(error) => Attempt(n.id, false, Some(address), Some(RefusalError(error)))
    case Raised(error) => Attempt(n.id, false, Some(address), Some(error))
  }

  // ---- The state machine ----

  /** In a call, `accepted` tells whether the provider has taken on the message, which the
      worker learns only from the answer, if it lives to get one. */
  datatype Phase =
    | Idle
    | Considering(seen: Notification, readAt: int)
    | Prepared(processing: Notification, expected: Status, staleBefore: Option<int>)
    | Holding(processing: Notification)
    | Calling(processing: Notification, address: string, accepted: bool)

  datatype World = World(lease: int, now: int, row: Notification, attempts: seq<Attempt>, phases: map<nat, Phase>)

  datatype Step =
    | Read(worker: nat)
    | Reject(worker: nat, verdict: Verdict)
    | Prepare(worker: nat, rendered: Option<Content>)
    | Claim(worker: nat)
    | FailWithoutAddress(worker: nat)
    | BeginSend(worker: nat, address: string)
    | ProviderAccepts(worker: nat)
    | FinishSend(worker: nat, result: SendResult)
    | Crash(worker: nat)
    | Cancel(cancelled: Notification)
    | Tick(elapsed: nat)

  function PhaseOf(w: World, k: nat): Phase {
    if k in w.phases then w.phases[k] else Idle
  }

  function Enter(w: World, k: nat, p: Phase): World {
    w.(phases := w.phases[k := p])
  }

  /** Log an attempt and overwrite the row, in one transaction. */
  function Record(w: World, k: nat, attempt: Attempt, updated: Outcome): Option<World> {
    if updated.Err? then None
    else Some(Enter(w, k, Idle).(row := updated.value, attempts := w.attempts + [attempt]))
  }

  /** The effect of a step, or None when it cannot happen in this state. */
  function Next(w: World, s: Step): Option<World> {
    match s
    case Read(k) =>
      if PhaseOf(w, k).Idle? && Consider(w.row, w.now, w.lease).Some?
      then Some(Enter(w, k, Considering(w.row, w.now)))
      else None
    case Reject(k, verdict) =>
      (match PhaseOf(w, k)
       case Considering(seen, readAt) =>
         (match Consider(seen, readAt, w.lease)
          case Some(n) =>
            (match Rejected(n, verdict, w.now)
             case Ok(updated) => Some(Enter(w, k, Idle).(row := updated))
             case Err(_) => None)
          case None => None)
       case _ => None)
    case Prepare(k, rendered) =>
      (match PhaseOf(w, k)
       case Considering(seen, readAt) =>
         (match Consider(seen, readAt, w.lease)
          case Some(n) =>
            (match ClaimEntity(n, seen.status, rendered, w.now)
             case Ok(p) =>
               var staleBefore := if seen.status.Processing? then Some(readAt - w.lease) else None;
               Some(Enter(w, k, Prepared(p, seen.status, staleBefore)))
             case Err(_) => None)
          case None => None)
       case _ => None)
    case Claim(k) =>
      (match PhaseOf(w, k)
       case Prepared(p, expected, staleBefore) =>
         (match ClaimRow(w.row, p, expected, staleBefore)
          case Some(claimed) => Some(Enter(w, k, Holding(p)).(row := claimed))
          case None => Some(Enter(w, k, Idle)))
       case _ => None)
    case FailWithoutAddress(k) =>
      (match PhaseOf(w, k)
       case Holding(p) =>
         var error := NoAddressError(p);
         Record(w, k, Attempt(p.id, false, None, Some(error)), Apply(p, MarkFailed(error), w.now))
       case _ => None)
    case BeginSend(k, address) =>
      (match PhaseOf(w, k)
       case Holding(p) => if address == "" then None else Some(Enter(w, k, Calling(p, address, false)))
       case _ => None)
    case ProviderAccepts(k) =>
      (match PhaseOf(w, k)
       case Calling(p, address, false) => Some(Enter(w, k, Calling(p, address, true)))
       case _ => None)
    case FinishSend(k, result) =>
      (match PhaseOf(w, k)
       case Calling(p, address, accepted) =>
         if result.Accepted? && !accepted then None else
         Record(w, k, Logged(p, address, result), Apply(p, Conclusion(result), w.now))
       case _ => None)
    case Crash(k) => Some(Enter(w, k, Idle))
    case Cancel(cancelled) =>
      if !cancelled.status.Cancelled? || !cancelled.Valid() then None else
      (match CancelRow(w.row, cancelled)
       case Some(row) => Some(w.(row := row))
       case None => None)
    case Tick(elapsed) => Some(w.(now := w.now + elapsed))
  }

  /** Several steps in a row, or None when one of them cannot happen. */
  function Run(w: World, steps: seq<Step>): Option<World>
    decreases |steps|
  {
    if steps == [] then Some(w) else
    match Next(w, steps[0])
    case Some(next) => Run(next, steps[1..])
    case None => None
  }

  /** A fresh child of an intake: deliverable, never attempted, nobody working on it. */
  predicate Initial(w: World) {
    && w.row.Valid()
    && w.row.status in {Pending, Postponed}
    && w.attempts == []
    && w.phases == map[]
  }

  /** `states` are the states of one execution of the protocol. */
  ghost predicate Execution(states: seq<World>, steps: seq<Step>) {
    && |states| == |steps| + 1
    && Initial(states[0])
    && forall i :: 0 <= i < |steps| ==> Next(states[i], steps[i]) == Some(states[i + 1])
  }

  /** The worker is between its successful claim and its outcome. */
  predicate Holder(w: World, k: nat) {
    PhaseOf(w, k).Holding? || PhaseOf(w, k).Calling?
  }

  /** Some holder is past its lease, counted from the stamp its claim wrote. */
  ghost predicate Overrun(w: World) {
    exists k: nat :: Holder(w, k) && w.now >= PhaseOf(w, k).processing.updatedAt + w.lease
  }

  /** Up to state i, nobody overran a lease. */
  ghost predicate LeasesKept(states: seq<World>, i: nat) {
    forall j :: 0 <= j <= i < |states| ==> !Overrun(states[j])
  }

  /** Up to state i, every policy rejection was written over the very row it had judged. */
  ghost predicate RejectionsFresh(states: seq<World>, steps: seq<Step>, i: nat)
    requires |states| == |steps| + 1
  {
    forall j :: 0 <= j < i <= |steps| && steps[j].Reject? ==> FreshRejection(states[j], steps[j].worker)
  }

  predicate FreshRejection(w: World, k: nat) {
    PhaseOf(w, k).Considering? ==> w.row == PhaseOf(w, k).seen
  }

  function Successes(log: seq<Attempt>): nat {
    if log == [] then 0
    else Successes(log[..|log| - 1]) + (if log[|log| - 1].success then 1 else 0)
  }
}
