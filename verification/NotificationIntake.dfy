/** The intake: an accepted request before it is expanded into notifications, and the
    notifications a worker builds from it. */
module NotificationIntake {
  import opened Domain
  import opened PlanAssembly
  import DecisionConstraints
  import TemplateRendering
  import N = NotificationEntity
  import PolicyResolver
  import Outbox

  datatype Status = Received | Processing | Completed | Failed

  datatype Error = InvalidTransition(from: Status, to: Status) | InvalidAttribute

  datatype Intake = Intake(
    id: nat,
    projectId: nat,
    transactionId: nat,
    recipientId: nat,
    payload: Payload,
    constraints: DecisionConstraints.Constraints,
    status: Status,
    plan: Option<Plan>,
    attempts: nat,
    claimedAt: Option<int>,
    completedAt: Option<int>,
    failureReason: Option<string>)
  {
    /** The checks every construction runs. */
    predicate Valid() {
      && (status.Received? ==> plan.None? && claimedAt.None?)
      && (status.Processing? ==> claimedAt.Some?)
      && (if status.Completed? then plan.Some? && completedAt.Some? else completedAt.None?)
      && (if status.Failed? then failureReason.Some? && failureReason.value != "" else failureReason.None?)
    }

    predicate Finished() {
      status.Completed? || status.Failed?
    }

    /** Never touched, or leased by a worker whose lease has run out. */
    predicate Claimable(now: int, lease: int) {
      status.Received? || (status.Processing? && claimedAt.Some? && claimedAt.value + lease <= now)
    }
  }

  type Outcome = Result<Intake, Error>

  function Construct(i: Intake): Outcome {
    if i.Valid() then Ok(i) else Err(InvalidAttribute)
  }

  /** Take, or retake, the lease; a stored plan is kept. */
  function Claim(i: Intake, now: int, lease: int): Outcome {
    if !i.Claimable(now, lease) then Err(InvalidTransition(i.status, Processing))
    else Construct(i.(status := Processing, claimedAt := Some(now), attempts := i.attempts + 1))
  }

  function WithPlan(i: Intake, plan: Plan): Outcome {
    if !i.status.Processing? then Err(InvalidAttribute) else Construct(i.(plan := Some(plan)))
  }

  function Complete(i: Intake, now: int): Outcome {
    if !i.status.Processing? then Err(InvalidTransition(i.status, Completed))
    else if i.plan.None? then Err(InvalidAttribute)
    else Construct(i.(status := Completed, completedAt := Some(now)))
  }

  function Fail(i: Intake, reason: string): Outcome {
    if i.Finished() then Err(InvalidTransition(i.status, Failed))
    else if reason == "" then Err(InvalidAttribute)
    else Construct(i.(status := Failed, failureReason := Some(reason)))
  }

  /** Which changes a valid intake admits, and that each touches nothing else: a lease that is
      free or has run out can be taken; a plan goes only to one that is being processed; it is
      completed only with a plan, and failed only for a reason and before it has ended. */
  lemma ChangesOfAnIntake(i: Intake, plan: Plan, reason: string, now: int, lease: int)
    requires i.Valid()
    ensures Claim(i, now, lease)
            == if i.status == Received || (i.status == Processing && i.claimedAt.value + lease <= now)
               then Ok(i.(status := Processing, claimedAt := Some(now), attempts := i.attempts + 1))
               else Err(InvalidTransition(i.status, Processing))
    ensures WithPlan(i, plan) == if i.status == Processing then Ok(i.(plan := Some(plan))) else Err(InvalidAttribute)
    ensures Complete(i, now).Ok? <==> i.status == Processing && i.plan != None
    ensures Complete(i, now).Ok? ==> Complete(i, now).value == i.(status := Completed, completedAt := Some(now))
    ensures Fail(i, reason).Ok? <==> i.status !in {Completed, Failed} && reason != ""
    ensures Fail(i, reason).Ok? ==> Fail(i, reason).value == i.(status := Failed, failureReason := Some(reason))
  {
  }

  // ---- The children ----

  /** How the send time of a child came about. */
  function Basis(p: Payload, plan: Plan): N.SendTimeBasis {
    if p.sendAt.Some? then N.Explicit
    else if plan.category.Critical? then N.Immediate
    else N.MlPredicted
  }

  function At(t: Option<Timestamp>): Option<int> {
    if t.Some? then Some(t.value.at) else None
  }

  /** The notification for one channel of the plan; `content` is what the template renders
      to, or the request's own content. */
  function BuildChild(i: Intake, plan: Plan, channel: Channel, id: nat, content: Content, now: int): N.Outcome {
    var child := N.Notification(
                   id, i.projectId, i.recipientId, i.transactionId, channel, plan.category,
                   if plan.topic.Some? then Some(plan.topic.value.id) else None,
                   i.payload.templateId, Basis(i.payload, plan), content, N.Pending,
                   At(i.payload.sendAt), None, None, None, None, now);
    if channel in plan.sendAt && child.basis.MlPredicted?
    then N.Apply(child, N.Schedule(plan.sendAt[channel].at), now)
    else N.Construct(child)
  }

  /** The policy decision mapped onto the state machine. */
  function ApplyPolicy(n: N.Notification, d: PolicyResolver.Decision, now: int): N.Outcome {
    match d
    case Allow => Ok(n)
    case Postpone(resumeAt) => N.Apply(n, N.MarkPostponed(resumeAt), now)
    case Suppress => N.Apply(n, N.MarkSuppressed("policy violation"), now)
  }

  /** The child for one channel after the policy had its say. */
  function Child(i: Intake, plan: Plan, channel: Channel, id: nat, content: Content, d: PolicyResolver.Decision,
      now: int): N.Outcome
  {
    match BuildChild(i, plan, channel, id, content, now)
    case Err(e) => Err(e)
    case Ok(n) => ApplyPolicy(n, d, now)
  }

  /** Only children that are still to be delivered are announced. */
  predicate Announced(n: N.Notification) {
    n.status.Pending? || n.status.Postponed?
  }

  /** When a child is due, before the policy has its say. */
  function DueTime(p: Payload, plan: Plan, channel: Channel): Option<int> {
    if p.sendAt.Some? then Some(p.sendAt.value.at)
    else if plan.category.Critical? then None
    else if channel in plan.sendAt then Some(plan.sendAt[channel].at)
    else None
  }

  /** What a child takes over from its intake and its plan: for whom it is, of which project
      and transaction, on which topic and template, and when it is due and why then. */
  predicate Inherits(n: N.Notification, i: Intake, plan: Plan) {
    && (n.projectId, n.recipientId, n.transactionId) == (i.projectId, i.recipientId, i.transactionId)
    && n.category == plan.category
    && (match plan.topic case Some(t) => n.topicId == Some(t.id) case None => n.topicId == None)
    && n.templateId == i.payload.templateId
    && (n.basis.Explicit? <==> i.payload.sendAt.Some?)
    && (n.basis.Immediate? <==> i.payload.sendAt.None? && plan.category.Critical?)
    && (!n.status.Postponed? ==> n.sendAt == DueTime(i.payload, plan, n.channel))
  }

  /** Building a child never fails.  It takes over what it should; it is pending, postponed
      or suppressed, and a postponed one is due at its resume time; and a CRITICAL child has
      no send time of its own, so it goes out at once. */
  lemma ChildrenAreWellBuilt(i: Intake, plan: Plan, channel: Channel, id: nat, content: Content,
      d: PolicyResolver.Decision, now: int)
    requires i.payload.Valid()
    ensures Child(i, plan, channel, id, content, d, now).Ok?
    ensures var n := Child(i, plan, channel, id, content, d, now).value;
            && n.Valid() && (n.id, n.channel, n.content) == (id, channel, content) && Inherits(n, i, plan)
            && n.status == (match d
                            case Allow => N.Pending
                            case Postpone(_) => N.Postponed
                            case Suppress => N.Suppressed)
            && (d.Postpone? ==> n.sendAt == Some(d.resumeAt))
            && (plan.category.Critical? && i.payload.category == Some(Critical) && d.Allow? ==> n.sendAt.None?)
            && Outbox.DispatchEntry(n).availableAt == n.sendAt
  {
  }

  /** What a channel's child says: the template, as it is found by then, rendered with the
      request's variables; or else the request's own content, if it fits the channel. */
  function ContentFor(p: Payload, channel: Channel, template: Option<DecisionConstraints.Template>): Option<Content> {
    if p.templateId.Some? then
      if template.None? || channel !in template.value.variants then None else
      match TemplateRendering.Render(template.value.variants[channel], p.variables)
      case Ok(content) => Some(content)
      case Err(_) => None
    else if p.content.None? || DecisionConstraints.ContentProblem(channel, p.content.value).Some? then None
    else p.content
  }

  /** A child gets the request's own content exactly if the channel can carry it: with a title
      on e-mail and without one on SMS.  With a template it gets what the variant for its
      channel renders to, if the template is still there, has one, and renders. */
  lemma ContentExactlyWhen(p: Payload, channel: Channel, template: Option<DecisionConstraints.Template>)
    ensures p.templateId.None? ==>
              var fits :=
                && p.content.Some?
                && (channel.Email? ==> DecisionConstraints.HasText(p.content.value.title))
                && (channel.Sms? ==> p.content.value.title.None? || p.content.value.title.value == "");
              ContentFor(p, channel, template) == if fits then p.content else None
    ensures p.templateId.Some? ==>
              forall r: Content :: ContentFor(p, channel, template) == Some(r) <==>
                && template.Some? && channel in template.value.variants
                && TemplateRendering.Render(template.value.variants[channel], p.variables) == Ok(r)
  {
    if p.content.Some? && p.content.value.title.Some? {
      TemplateRendering.BlankIsSpaces(p.content.value.title.value);
    }
  }
}
