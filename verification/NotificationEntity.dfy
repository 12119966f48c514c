/** The `Notification` entity: its invariants and its state machine.  A transition
    builds a new value, which is validated like any freshly constructed one. */
module NotificationEntity {
  import opened Domain

  datatype Status =
    | Pending | Processing | Delivered | Failed
    | Bounced | Suppressed | Postponed | Cancelled

  datatype SendTimeBasis = Immediate | Explicit | MlPredicted

  datatype EntityError = InvalidTransition(from: Status, to: Status) | InvalidAttribute

  datatype Notification = Notification(
    id: nat,
    projectId: nat,
    recipientId: nat,
    transactionId: nat,
    channel: Channel,
    category: Category,
    topicId: Option<nat>,
    templateId: Option<nat>,
    basis: SendTimeBasis,
    content: Content,
    status: Status,
    sendAt: Option<int>,
    suppressionReason: Option<string>,
    cancellationReason: Option<string>,
    failureReason: Option<string>,
    deliveredAt: Option<int>,
    updatedAt: int)
  {
    /** The checks every construction runs. */
    predicate Valid() {
      && (status.Suppressed? <==> suppressionReason.Some?)
      && (!status.Cancelled? ==> cancellationReason.None?)
      && ((status.Failed? || status.Bounced?) <==> failureReason.Some?)
      && (status.Delivered? <==> deliveredAt.Some?)
      && (status.Postponed? ==> sendAt.Some?)
    }

    /** No transition leaves these. */
    predicate Terminal() {
      status in {Delivered, Failed, Bounced, Suppressed, Cancelled}
    }
  }

  datatype Transition =
    | Schedule(sendAt: int)
    | WithContent(content: Content)
    | MarkProcessing
    | RetryDelivery
    | ReclaimProcessing
    | MarkCancelled(cancellation: Option<string>)
    | MarkSuppressed(reason: string)
    | MarkPostponed(resumeAt: int)
    | Resume
    | MarkDelivered
    | MarkFailed(reason: string)
    | MarkBounced(reason: string)

  type Outcome = Result<Notification, EntityError>

  /** Construction: reject a value that breaks the entity's invariants. */
  function Construct(n: Notification): Outcome {
    if n.Valid() then Ok(n) else Err(InvalidAttribute)
  }

  /** Apply one transition; `now` is the clock reading it stores in `updatedAt`. */
  function Apply(n: Notification, t: Transition, now: int): Outcome {
    match t
    case Schedule(at) =>
      if !n.basis.MlPredicted? || !n.status.Pending? then Err(InvalidAttribute)
      else Construct(n.(sendAt := Some(at), updatedAt := now))
    case WithContent(content) =>
      Construct(n.(content := content, updatedAt := now))
    case MarkProcessing =>
      if n.status in {Pending, Postponed} then Construct(n.(status := Processing, updatedAt := now))
      else Err(InvalidTransition(n.status, Processing))
    case RetryDelivery =>
      if n.status.Processing? then Construct(n.(status := Pending, updatedAt := now))
      else Err(InvalidTransition(n.status, Pending))
    case ReclaimProcessing =>
      if n.status.Processing? then Construct(n.(status := Processing, updatedAt := now))
      else Err(InvalidTransition(n.status, Processing))
    case MarkCancelled(reason) =>
      if n.status.Pending?
      then Construct(n.(status := Cancelled, cancellationReason := reason, updatedAt := now))
      else Err(InvalidTransition(n.status, Cancelled))
    case MarkSuppressed(reason) =>
      if n.status !in {Pending, Processing} then Err(InvalidTransition(n.status, Suppressed))
      else if reason == "" then Err(InvalidAttribute)
      else Construct(n.(status := Suppressed, suppressionReason := Some(reason), updatedAt := now))
    case MarkPostponed(resumeAt) =>
      if n.status in {Pending, Processing}
      then Construct(n.(status := Postponed, sendAt := Some(resumeAt), updatedAt := now))
      else Err(InvalidTransition(n.status, Postponed))
    case Resume =>
      if n.status.Postponed? then Construct(n.(status := Pending, updatedAt := now))
      else Err(InvalidTransition(n.status, Pending))
    case MarkDelivered =>
      if n.status in {Pending, Processing}
      then Construct(n.(status := Delivered, deliveredAt := Some(now), updatedAt := now))
      else Err(InvalidTransition(n.status, Delivered))
    case MarkFailed(reason) =>
      if n.status !in {Pending, Processing} then Err(InvalidTransition(n.status, Failed))
      else if reason == "" then Err(InvalidAttribute)
      else Construct(n.(status := Failed, failureReason := Some(reason), updatedAt := now))
    case MarkBounced(reason) =>
      if n.status !in {Pending, Processing} then Err(InvalidTransition(n.status, Bounced))
      else if reason == "" then Err(InvalidAttribute)
      else Construct(n.(status := Bounced, failureReason := Some(reason), updatedAt := now))
  }

  // ---- The state machine as a table ----

  /** The statuses a transition can leave, and the one it leads to. */
  function Arrow(t: Transition): (set<Status>, Option<Status>) {
    match t
    case Schedule(_) => ({Pending}, None)
    case WithContent(_) => ({Pending, Processing, Delivered, Failed, Bounced, Suppressed, Postponed, Cancelled}, None)
    case MarkProcessing => ({Pending, Postponed}, Some(Processing))
    case RetryDelivery => ({Processing}, Some(Pending))
    case ReclaimProcessing => ({Processing}, Some(Processing))
    case MarkCancelled(_) => ({Pending}, Some(Cancelled))
    case MarkSuppressed(_) => ({Pending, Processing}, Some(Suppressed))
    case MarkPostponed(_) => ({Pending, Processing}, Some(Postponed))
    case Resume => ({Postponed}, Some(Pending))
    case MarkDelivered => ({Pending, Processing}, Some(Delivered))
    case MarkFailed(_) => ({Pending, Processing}, Some(Failed))
    case MarkBounced(_) => ({Pending, Processing}, Some(Bounced))
  }

  /** What a transition must bring besides a status it can leave. */
  predicate Admitted(n: Notification, t: Transition) {
    && (t.Schedule? ==> n.basis.MlPredicted?)
    && (t.MarkSuppressed? || t.MarkFailed? || t.MarkBounced? ==> t.reason != "")
  }

  /** A valid notification makes a transition exactly along its arrow, and then nothing
      changes but the status, the stamp, and the one thing the transition is about. */
  lemma TransitionsFollowTheirArrows(n: Notification, t: Transition, now: int)
    requires n.Valid()
    ensures Apply(n, t, now).Ok? <==> n.status in Arrow(t).0 && Admitted(n, t)
    ensures Apply(n, t, now).Ok? ==>
              Apply(n, t, now).value
              == n.(status := if Arrow(t).1.Some? then Arrow(t).1.value else n.status,
                    updatedAt := now,
                    content := if t.WithContent? then t.content else n.content,
                    sendAt := if t.Schedule? then Some(t.sendAt)
                              else if t.MarkPostponed? then Some(t.resumeAt) else n.sendAt,
                    cancellationReason := if t.MarkCancelled? then t.cancellation else n.cancellationReason,
                    suppressionReason := if t.MarkSuppressed? then Some(t.reason) else n.suppressionReason,
                    failureReason := if t.MarkFailed? || t.MarkBounced? then Some(t.reason) else n.failureReason,
                    deliveredAt := if t.MarkDelivered? then Some(now) else n.deliveredAt)
  {
  }

  /** A history of transitions with the clock reading of each; it stops at the first error. */
  function Replay(n: Notification, history: seq<(Transition, int)>): Outcome
    decreases |history|
  {
    if history == [] then Ok(n) else
    match Apply(n, history[0].0, history[0].1)
    case Ok(next) => Replay(next, history[1..])
    case Err(e) => Err(e)
  }

  /** The parts of a notification that no transition touches. */
  function Identity(n: Notification): (nat, nat, nat, nat, Channel, Category, Option<nat>, Option<nat>, SendTimeBasis) {
    (n.id, n.projectId, n.recipientId, n.transactionId, n.channel, n.category, n.topicId, n.templateId, n.basis)
  }

  /** `r` may follow `n`: valid, the same notification, and if `n` is terminal then at
      most its content (and update stamp) differs. */
  predicate Follows(n: Notification, r: Notification) {
    && r.Valid()
    && Identity(r) == Identity(n)
    && (n.Terminal() ==> n == r.(content := n.content, updatedAt := n.updatedAt))
  }

  lemma TransitionsFollow(n: Notification, t: Transition, now: int)
    requires n.Valid() && Apply(n, t, now).Ok?
    ensures Follows(n, Apply(n, t, now).value)
  {
  }

  /** Over any history of a valid notification: the result is the same notification, it is
      valid, so what it stores besides fits its status, and once the status is terminal only
      its content can still change. */
  lemma {:induction false} HistoriesStayValid(n: Notification, history: seq<(Transition, int)>)
    requires n.Valid() && Replay(n, history).Ok?
    ensures Follows(n, Replay(n, history).value)
    ensures var r := Replay(n, history).value;
            && (r.status == Suppressed <==> r.suppressionReason != None)
            && (r.status in {Failed, Bounced} <==> r.failureReason != None)
            && (r.status == Delivered <==> r.deliveredAt != None)
            && (r.cancellationReason != None ==> r.status == Cancelled)
            && (r.status == Postponed ==> r.sendAt != None)
    decreases |history|
  {
    if history == [] {
    } else {
      TransitionsFollow(n, history[0].0, history[0].1);
      HistoriesStayValid(Apply(n, history[0].0, history[0].1).value, history[1..]);
    }
  }

  /** No transition of a valid notification ever trips over the construction checks:
      the only refusals are an illegal source status, an empty reason, or scheduling
      something whose send time is not for the model to choose. */
  lemma ConstructionNeverRefuses(n: Notification, t: Transition, now: int)
    requires n.Valid()
    ensures Apply(n, t, now) == Err(InvalidAttribute) <==>
              || (t.Schedule? && !(n.basis.MlPredicted? && n.status.Pending?))
              || ((t.MarkSuppressed? || t.MarkFailed? || t.MarkBounced?)
                  && n.status in {Pending, Processing} && t.reason == "")
  {
  }
}
