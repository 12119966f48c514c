/** The delivery use case and the cancellation use case over a stored table, as the
    worker runs them.  `Process` is proved to be a run of the delivery protocol. */
module DeliveryService {
  import opened Domain
  import opened NotificationEntity
  import opened DeliveryProtocol

  datatype ServiceError =
    | NotificationNotFound
    | RecipientNotFound
    | MissingCutoff
    | TemplateFailed
    | ProviderRaised(error: string)
    | Entity(cause: EntityError)

  function Lookup(rows: map<nat, Notification>, id: nat, projectId: nat): Option<Notification> {
    if id in rows && rows[id].projectId == projectId then Some(rows[id]) else None
  }

  /** The notification table and the append-only attempt log. */
  class NotificationRepository {
    var rows: map<nat, Notification>
    var attempts: seq<Attempt>

    /** Rows are stored under their own id and were validated when they were built. */
    ghost predicate Valid()
      reads this
    {
      forall id :: id in rows ==> rows[id].id == id && rows[id].Valid()
    }

    constructor ()
      ensures Valid() && rows == map[] && attempts == []
    {
      rows, attempts := map[], [];
    }

    method GetById(id: nat, projectId: nat) returns (r: Option<Notification>)
      ensures r == Lookup(rows, id, projectId)
    {
      r := if id in rows && rows[id].projectId == projectId then Some(rows[id]) else None;
    }

    /** Insert, or overwrite the whole row with the same id. */
    method Save(n: Notification)
      requires Valid() && n.Valid()
      modifies this`rows
      ensures Valid() && rows == old(rows)[n.id := n]
    {
      rows := rows[n.id := n];
    }

    method LogAttempt(a: Attempt)
      modifies this`attempts
      ensures attempts == old(attempts) + [a]
    {
      attempts := attempts + [a];
    }

    /** What other transactions on the same row commit in between. */
    method Interrupt(row: Notification, o: Others)
      requires Valid() && row.id in rows && rows[row.id] == row && o.Fits(row.id, row.projectId)
      modifies this
      ensures Valid() && rows == old(rows)[row.id := o.Row(row)] && attempts == old(attempts) + o.attempts
    {
      rows, attempts := rows[row.id := o.Row(row)], attempts + o.attempts;
    }

    /** Cancel only while the stored row is still PENDING.  Rows stay valid when what is
        written is a cancellation. */
    method CancelPending(cancelled: Notification) returns (matched: bool)
      requires Valid() && cancelled.Valid()
      modifies this`rows
      ensures cancelled.status.Cancelled? ==> Valid()
      ensures var row := Lookup(old(rows), cancelled.id, cancelled.projectId);
              && matched == (row.Some? && row.value.status.Pending?)
              && rows == if matched then old(rows)[cancelled.id := CancelRow(row.value, cancelled).value] else old(rows)
    {
      var id := cancelled.id;
      matched := id in rows && rows[id].projectId == cancelled.projectId && rows[id].status.Pending?;
      if matched {
        rows := rows[id := rows[id].(status := cancelled.status,
                                     cancellationReason := cancelled.cancellationReason,
                                     updatedAt := cancelled.updatedAt)];
      }
    }

    /** Claim a deliverable row, or reclaim one whose stamp is not newer than the cutoff.
        Rows stay valid when what is written is a claim of a deliverable row. */
    method ClaimForDelivery(claim: Notification, expected: Status, staleBefore: Option<int>)
      returns (r: Result<bool, ServiceError>)
      requires Valid() && claim.Valid()
      modifies this`rows
      ensures claim.status.Processing? && expected in {Pending, Postponed, Processing} ==> Valid()
      ensures r.Err? <==> expected.Processing? && staleBefore.None?
      ensures r.Err? ==> r.error.MissingCutoff? && rows == old(rows)
      ensures r.Ok? ==>
                var row := Lookup(old(rows), claim.id, claim.projectId);
                && r.value == (row.Some? && ClaimRow(row.value, claim, expected, staleBefore).Some?)
                && rows == if r.value
                           then old(rows)[claim.id := ClaimRow(row.value, claim, expected, staleBefore).value]
                           else old(rows)
      ensures r.Ok? ==>
                (r.value <==>
                  && claim.id in old(rows) && old(rows)[claim.id].projectId == claim.projectId
                  && old(rows)[claim.id].status == expected
                  && (expected.Processing? ==> old(rows)[claim.id].updatedAt <= staleBefore.value))
    {
      if expected.Processing? && staleBefore.None? {
        return Err(MissingCutoff);
      }
      var id := claim.id;
      var matched := id in rows && rows[id].projectId == claim.projectId && rows[id].status == expected;
      if matched && expected.Processing? {
        matched := rows[id].updatedAt <= staleBefore.value;
      }
      if matched {
        rows := rows[id := rows[id].(status := claim.status, content := claim.content, updatedAt := claim.updatedAt)];
      }
      r := Ok(matched);
    }
  }

  datatype Resolver = Absent | Resolves(content: Content) | Fails

  /** Everything a delivery run learns from outside: its clock readings, the recipient,
      the policy guard's rejection if any, the rendered template, the provider's answer. */
  datatype Inputs = Inputs(
    readAt: int,
    decideAt: int,
    outcomeAt: int,
    recipientKnown: bool,
    rejection: Option<Verdict>,
    resolver: Resolver,
    address: string,
    answer: SendResult)
  {
    predicate ClockRunsForward() {
      readAt <= decideAt <= outcomeAt
    }

    function Rendered(): Option<Content> {
      if resolver.Resolves? then Some(resolver.content) else None
    }
  }

  // ---- The protocol run of one delivery ----

  /** The worker reads the row, and its clock moves on to the decision. */
  function Reading(inp: Inputs): seq<Step>
    requires inp.ClockRunsForward()
  {
    [Read(0), Tick(inp.decideAt - inp.readAt)]
  }

  /** Prepare the claim and try it. */
  function Claiming(inp: Inputs): seq<Step> {
    [Prepare(0, inp.Rendered()), Claim(0)]
  }

  /** A message that is reported as sent was taken on. */
  function Accepting(inp: Inputs): seq<Step> {
    if inp.answer.Accepted? then [ProviderAccepts(0)] else []
  }

  /** With the claim in hand: contact the provider and record its answer. */
  function Sending(inp: Inputs): seq<Step>
    requires inp.ClockRunsForward()
  {
    if inp.address == "" then [Tick(inp.outcomeAt - inp.decideAt), FailWithoutAddress(0)]
    else [BeginSend(0, inp.address)] + Accepting(inp) + [Tick(inp.outcomeAt - inp.decideAt), FinishSend(0, inp.answer)]
  }

  /** The attempt and the final entity of a delivery that holds `p`. */
  function Concluded(p: Notification, inp: Inputs): (Attempt, Outcome) {
    if inp.address == "" then
      (Attempt(p.id, false, None, Some(NoAddressError(p))), Apply(p, MarkFailed(NoAddressError(p)), inp.outcomeAt))
    else
      (Logged(p, inp.address, inp.answer), Apply(p, Conclusion(inp.answer), inp.outcomeAt))
  }

  lemma ReadingRuns(w: World, inp: Inputs)
    requires inp.ClockRunsForward() && w.now == inp.readAt
    requires PhaseOf(w, 0).Idle? && Consider(w.row, w.now, w.lease).Some?
    ensures Run(w, Reading(inp)) == Some(Enter(w, 0, Considering(w.row, inp.readAt)).(now := inp.decideAt))
  {
    var w1 := Next(w, Read(0)).value;
    assert Reading(inp)[1..] == [Tick(inp.decideAt - inp.readAt)];
    assert Run(w1, [Tick(inp.decideAt - inp.readAt)]) == Next(w1, Tick(inp.decideAt - inp.readAt));
  }

  lemma ClaimingRuns(w: World, inp: Inputs, n: Notification)
    requires PhaseOf(w, 0).Considering?
    requires Consider(PhaseOf(w, 0).seen, PhaseOf(w, 0).readAt, w.lease) == Some(n)
    requires ClaimEntity(n, PhaseOf(w, 0).seen.status, inp.Rendered(), w.now).Ok?
    ensures var seen, readAt := PhaseOf(w, 0).seen, PhaseOf(w, 0).readAt;
            var p := ClaimEntity(n, seen.status, inp.Rendered(), w.now).value;
            var cutoff := if seen.status.Processing? then Some(readAt - w.lease) else None;
            Run(w, Claiming(inp)) ==
              match ClaimRow(w.row, p, seen.status, cutoff)
              case Some(row) => Some(Enter(w, 0, Holding(p)).(row := row))
              case None => Some(Enter(w, 0, Idle))
  {
    var w1 := Next(w, Prepare(0, inp.Rendered())).value;
    assert Claiming(inp)[1..] == [Claim(0)];
    assert Run(w1, [Claim(0)]) == Next(w1, Claim(0));
    assert w1.phases[0 := Idle] == w.phases[0 := Idle];
    var p := ClaimEntity(n, PhaseOf(w, 0).seen.status, inp.Rendered(), w.now).value;
    assert w1.phases[0 := Holding(p)] == w.phases[0 := Holding(p)];
  }

  lemma RunCons(w: World, s: Step, v: World, rest: seq<Step>)
    requires Next(w, s) == Some(v)
    ensures Run(w, [s] + rest) == Run(v, rest)
  {
  }

  /** Whoever holds the row can record any outcome. */
  lemma OutcomesAreWritable(p: Notification, inp: Inputs)
    requires p.Valid() && p.status.Processing?
    ensures Concluded(p, inp).1.Ok? && Concluded(p, inp).1.value.Valid() && Concluded(p, inp).1.value.id == p.id
  {
  }

  /** The state once the outcome is recorded. */
  function Recorded(w: World, inp: Inputs, p: Notification): World
    requires Concluded(p, inp).1.Ok?
  {
    var (attempt, updated) := Concluded(p, inp);
    Enter(w, 0, Idle).(row := updated.value, attempts := w.attempts + [attempt])
  }

  lemma RecordingRuns(w: World, s: Step, inp: Inputs, p: Notification)
    requires w.now == inp.outcomeAt && p.Valid() && p.status.Processing?
    requires if inp.address == "" then PhaseOf(w, 0) == Holding(p) && s == FailWithoutAddress(0)
             else PhaseOf(w, 0) == Calling(p, inp.address, inp.answer.Accepted?) && s == FinishSend(0, inp.answer)
    ensures Concluded(p, inp).1.Ok? && Run(w, [s]) == Some(Recorded(w, inp, p))
  {
  }

  lemma WaitingRuns(w: World, inp: Inputs, rest: seq<Step>)
    requires inp.ClockRunsForward() && w.now == inp.decideAt
    ensures Run(w, [Tick(inp.outcomeAt - inp.decideAt)] + rest) == Run(w.(now := inp.outcomeAt), rest)
  {
    RunCons(w, Tick(inp.outcomeAt - inp.decideAt), w.(now := inp.outcomeAt), rest);
  }

  lemma ProviderIsCalled(w: World, inp: Inputs, p: Notification)
    requires inp.ClockRunsForward() && w.now == inp.decideAt && inp.address != ""
    requires PhaseOf(w, 0) == Holding(p) && p.Valid() && p.status.Processing?
    ensures Concluded(p, inp).1.Ok? && Run(w, Sending(inp)) == Some(Recorded(w.(now := inp.outcomeAt), inp, p))
  {
    var last := [Tick(inp.outcomeAt - inp.decideAt), FinishSend(0, inp.answer)];
    var calling := Enter(w, 0, Calling(p, inp.address, false));
    assert Sending(inp) == [BeginSend(0, inp.address)] + (Accepting(inp) + last);
    RunCons(w, BeginSend(0, inp.address), calling, Accepting(inp) + last);
    if inp.answer.Accepted? {
      var accepted := Enter(calling, 0, Calling(p, inp.address, true));
      RunCons(calling, ProviderAccepts(0), accepted, last);
      AnswerRuns(w, accepted, inp, p);
    } else {
      assert Accepting(inp) + last == last;
      AnswerRuns(w, calling, inp, p);
    }
  }

  lemma AnswerRuns(w: World, calling: World, inp: Inputs, p: Notification)
    requires inp.ClockRunsForward() && calling.now == inp.decideAt && inp.address != ""
    requires p.Valid() && p.status.Processing? && PhaseOf(calling, 0) == Calling(p, inp.address, inp.answer.Accepted?)
    requires calling == w.(phases := calling.phases) && calling.phases[0 := Idle] == w.phases[0 := Idle]
    ensures Concluded(p, inp).1.Ok?
    ensures Run(calling, [Tick(inp.outcomeAt - inp.decideAt), FinishSend(0, inp.answer)])
            == Some(Recorded(w.(now := inp.outcomeAt), inp, p))
  {
    WaitingRuns(calling, inp, [FinishSend(0, inp.answer)]);
    RecordingRuns(calling.(now := inp.outcomeAt), FinishSend(0, inp.answer), inp, p);
  }

  lemma SendingRuns(w: World, inp: Inputs, p: Notification)
    requires inp.ClockRunsForward() && w.now == inp.decideAt
    requires PhaseOf(w, 0) == Holding(p) && p.Valid() && p.status.Processing?
    ensures Concluded(p, inp).1.Ok? && Concluded(p, inp).1.value.Valid() && Concluded(p, inp).1.value.id == p.id
    ensures Run(w, Sending(inp)) == Some(Recorded(w.(now := inp.outcomeAt), inp, p))
  {
    OutcomesAreWritable(p, inp);
    if inp.address == "" {
      WaitingRuns(w, inp, [FailWithoutAddress(0)]);
      RecordingRuns(w.(now := inp.outcomeAt), FailWithoutAddress(0), inp, p);
    } else {
      ProviderIsCalled(w, inp, p);
    }
  }

  /** What the run leaves behind: the row, the log, and what the caller gets. */
  datatype End = End(row: Notification, attempts: seq<Attempt>, result: Result<Notification, ServiceError>)

  /** Whatever a worker goes on with can be rejected by the policy and can be claimed. */
  lemma ConsideredIsWritable(row: Notification, lease: int, inp: Inputs)
    requires row.Valid() && Consider(row, inp.readAt, lease).Some?
    ensures var n := Consider(row, inp.readAt, lease).value;
            && Writable(ClaimEntity(n, row.status, inp.Rendered(), inp.decideAt), row)
            && ClaimEntity(n, row.status, inp.Rendered(), inp.decideAt).value.status.Processing?
            && (inp.rejection.Some? ==> Writable(Rejected(n, inp.rejection.value, inp.decideAt), row))
  {
  }

  predicate Writable(o: Outcome, row: Notification) {
    o.Ok? && o.value.Valid() && o.value.id == row.id && o.value.projectId == row.projectId
  }

  function Written(o: Outcome, otherwise: Notification): Notification {
    if o.Ok? then o.value else otherwise
  }

  /** What other transactions commit at some point of the run, however many they are: the
      row as they leave it, if they touch it, and the attempts they log. */
  datatype Others = Others(row: Option<Notification>, attempts: seq<Attempt>)
  {
    /** They write valid versions of the same row. */
    predicate Fits(id: nat, projectId: nat) {
      row.Some? ==> row.value.Valid() && row.value.id == id && row.value.projectId == projectId
    }

    function Row(before: Notification): Notification {
      if row.Some? then row.value else before
    }
  }

  /** The effect of one delivery run on its row and on the log.  Others may commit between
      the read and the next write of this run, and again between its claim and the outcome. */
  function DeliveryEffect(lease: int, row: Notification, attempts: seq<Attempt>, first: Others, second: Others,
      inp: Inputs): End
  {
    var considered := Consider(row, inp.readAt, lease);
    var log := attempts + first.attempts;
    if considered.None? then End(row, attempts, Ok(row))
    else if !inp.recipientKnown then End(row, attempts, Err(RecipientNotFound))
    else if inp.rejection.Some? then
      var updated := Written(Rejected(considered.value, inp.rejection.value, inp.decideAt), row);
      End(updated, log, Ok(updated))
    else if inp.resolver.Fails? then End(first.Row(row), log, Err(TemplateFailed))
    else
      var p := Written(ClaimEntity(considered.value, row.status, inp.Rendered(), inp.decideAt), row);
      var cutoff := if row.status.Processing? then Some(inp.readAt - lease) else None;
      if ClaimRow(first.Row(row), p, row.status, cutoff).None? then End(first.Row(row), log, Ok(first.Row(row)))
      else
        var (attempt, outcome) := Concluded(p, inp);
        var updated := Written(outcome, row);
        End(updated, log + second.attempts + [attempt],
            if inp.address != "" && inp.answer.Raised? then Err(ProviderRaised(inp.answer.error)) else Ok(updated))
  }

  /** A row that is due is claimed with its content filled in and nothing else changed. */
  lemma DueRowsAreClaimed(lease: int, row: Notification, first: Others, inp: Inputs)
    requires row.Valid() && DueForDelivery(row, inp.readAt, lease) && first.row.None? && !inp.resolver.Fails?
    ensures var considered := Consider(row, inp.readAt, lease);
            && considered.Some?
            && var claim := ClaimEntity(considered.value, row.status, inp.Rendered(), inp.decideAt);
               && claim == Ok(row.(status := Processing, updatedAt := inp.decideAt,
                                   content := if row.templateId.Some? && inp.resolver.Resolves?
                                              then inp.resolver.content else row.content))
               && ClaimRow(first.Row(row), claim.value, row.status,
                           if row.status.Processing? then Some(inp.readAt - lease) else None).Some?
  {
    TakenUpExactlyWhenDue(row, inp.readAt, lease);
  }

  /** What becomes of a claimed entity, and what is logged, by the provider's answer. */
  lemma AnswersConclude(p: Notification, inp: Inputs)
    requires p.Valid() && p.status.Processing?
    ensures var (attempt, updated) := Concluded(p, inp);
            && updated.Ok?
            && attempt.notificationId == p.id
            && attempt.address == (if inp.address == "" then None else Some(inp.address))
            && if inp.address == "" || inp.answer.Refused? then
                 && !attempt.success && attempt.error.Some? && attempt.error.value != ""
                 && (inp.address != "" && inp.answer.error != "" ==> attempt.error.value == inp.answer.error)
                 && updated.value == p.(status := Failed, failureReason := attempt.error, updatedAt := inp.outcomeAt)
               else if inp.answer.Raised? then
                 && !attempt.success && attempt.error == Some(inp.answer.error)
                 && updated.value == p.(status := Pending, updatedAt := inp.outcomeAt)
               else
                 && attempt.success && attempt.error.None?
                 && updated.value
                    == p.(status := Delivered, deliveredAt := Some(inp.outcomeAt), updatedAt := inp.outcomeAt)
  {
  }

  /** A row that is due, left alone by others and not rejected, ends with the outcome that
      belongs to the provider's answer, and one attempt that says the same: no address or a
      refusal make it FAILED for that reason, an exception puts it back to PENDING, and only
      success delivers it.  Nothing else of it changes but the rendered content. */
  lemma AnswersDecideTheOutcome(lease: int, row: Notification, attempts: seq<Attempt>, first: Others, second: Others,
      inp: Inputs)
    requires row.Valid() && DueForDelivery(row, inp.readAt, lease) && first.row.None?
    requires inp.recipientKnown && inp.rejection.None? && !inp.resolver.Fails?
    ensures var end := DeliveryEffect(lease, row, attempts, first, second, inp);
            var sent := row.(content := if row.templateId.Some? && inp.resolver.Resolves? then inp.resolver.content
                                        else row.content,
                             updatedAt := inp.outcomeAt);
            && |end.attempts| > 0
            && var log, last := end.attempts[..|end.attempts| - 1], end.attempts[|end.attempts| - 1];
               && log == attempts + first.attempts + second.attempts
               && last.notificationId == row.id
               && last.address == (if inp.address == "" then None else Some(inp.address))
               && if inp.address == "" || inp.answer.Refused? then
                    && !last.success && last.error.Some? && last.error.value != ""
                    && (inp.address != "" && inp.answer.error != "" ==> last.error.value == inp.answer.error)
                    && end.row == sent.(status := Failed, failureReason := last.error)
                    && end.result == Ok(end.row)
                  else if inp.answer.Raised? then
                    && !last.success && last.error == Some(inp.answer.error)
                    && end.row == sent.(status := Pending)
                    && end.result == Err(ProviderRaised(inp.answer.error))
                  else
                    && last.success && last.error.None?
                    && end.row == sent.(status := Delivered, deliveredAt := Some(inp.outcomeAt))
                    && end.result == Ok(end.row)
  {
    DueRowsAreClaimed(lease, row, first, inp);
    AnswersConclude(row.(status := Processing, updatedAt := inp.decideAt,
                         content := if row.templateId.Some? && inp.resolver.Resolves? then inp.resolver.content
                                    else row.content), inp);
  }

  /** A row that is due and rejected by the policy waits for the resume time, or is
      suppressed; nothing is attempted, and nothing else of the row changes. */
  lemma RejectionsDecideTheOutcome(lease: int, row: Notification, attempts: seq<Attempt>, first: Others,
      second: Others, inp: Inputs)
    requires row.Valid() && DueForDelivery(row, inp.readAt, lease) && inp.recipientKnown && inp.rejection.Some?
    ensures var end := DeliveryEffect(lease, row, attempts, first, second, inp);
            && end.attempts == attempts + first.attempts && end.result == Ok(end.row)
            && match inp.rejection.value
               case PostponeUntil(at) =>
                 end.row == row.(status := Postponed, sendAt := Some(at), updatedAt := inp.decideAt)
               case SuppressFor(reason) =>
                 && end.row == row.(status := Suppressed, suppressionReason := end.row.suppressionReason,
                                    updatedAt := inp.decideAt)
                 && end.row.suppressionReason.Some?
                 && (reason != "" ==> end.row.suppressionReason.value == reason)
  {
  }

  /** The protocol steps of the run from its read up to the claim, or to an earlier end. */
  function Deciding(inp: Inputs): seq<Step> {
    if inp.rejection.Some? then [Reject(0, inp.rejection.value)]
    else if inp.resolver.Fails? then []
    else Claiming(inp)
  }

  /** The state after others have committed. */
  function Interrupted(w: World, o: Others): World {
    w.(row := o.Row(w.row), attempts := w.attempts + o.attempts)
  }

  /** A delivery run is a run of the protocol.  It reads; others commit; it decides, which
      may be the end; and if it then holds the row, others commit again, it sends, and it
      records the outcome. */
  lemma DeliveryIsAProtocolRun(lease: int, row: Notification, attempts: seq<Attempt>, first: Others, second: Others,
      inp: Inputs)
    requires row.Valid() && inp.ClockRunsForward()
    requires Consider(row, inp.readAt, lease).Some? && inp.recipientKnown
    ensures var read := Run(World(lease, inp.readAt, row, attempts, map[]), Reading(inp));
            var end := DeliveryEffect(lease, row, attempts, first, second, inp);
            && read.Some?
            && var decided := Run(Interrupted(read.value, first), Deciding(inp));
               && decided.Some?
               && if Holder(decided.value, 0) then
                    var sent := Run(Interrupted(decided.value, second), Sending(inp));
                    sent.Some? && sent.value.row == end.row && sent.value.attempts == end.attempts
                  else decided.value.row == end.row && decided.value.attempts == end.attempts
  {
    var start := World(lease, inp.readAt, row, attempts, map[]);
    ReadingRuns(start, inp);
    ConsideredIsWritable(row, lease, inp);
    var w := Interrupted(Enter(start, 0, Considering(row, inp.readAt)).(now := inp.decideAt), first);
    if inp.rejection.Some? {
      assert Run(w, Deciding(inp)) == Next(w, Reject(0, inp.rejection.value));
    } else if !inp.resolver.Fails? {
      var n := Consider(row, inp.readAt, lease).value;
      ClaimingRuns(w, inp, n);
      var claimed := Run(w, Claiming(inp)).value;
      if Holder(claimed, 0) {
        SendingRuns(Interrupted(claimed, second), inp, ClaimEntity(n, row.status, inp.Rendered(), inp.decideAt).value);
      }
    }
  }

  class NotificationDeliveryProcessor {
    const repository: NotificationRepository
    const lease: int

    constructor (repository: NotificationRepository, lease: int)
      ensures this.repository == repository && this.lease == lease
    {
      this.repository := repository;
      this.lease := lease;
    }

    /** Deliver one notification: the row, the log and the answer end as `DeliveryEffect`
        says, and no other row changes. */
    method Process(id: nat, projectId: nat, first: Others, second: Others, inp: Inputs)
      returns (r: Result<Notification, ServiceError>)
      requires repository.Valid() && inp.ClockRunsForward()
      requires first.Fits(id, projectId) && second.Fits(id, projectId)
      modifies repository
      ensures repository.Valid()
      ensures match Lookup(old(repository.rows), id, projectId)
              case None =>
                && r == Err(NotificationNotFound)
                && repository.rows == old(repository.rows) && repository.attempts == old(repository.attempts)
              case Some(row) =>
                var end := DeliveryEffect(lease, row, old(repository.attempts), first, second, inp);
                && repository.rows == old(repository.rows)[id := end.row]
                && repository.attempts == end.attempts
                && r == end.result
      ensures var row := Lookup(old(repository.rows), id, projectId);
              row.Some? && !DueForDelivery(row.value, inp.readAt, lease) ==>
                && r == Ok(row.value)
                && repository.rows == old(repository.rows) && repository.attempts == old(repository.attempts)
    {
      var found := repository.GetById(id, projectId);
      if found.None? {
        return Err(NotificationNotFound);
      }
      var seen := found.value;
      assert repository.rows == repository.rows[id := seen];
      TakenUpExactlyWhenDue(seen, inp.readAt, lease);
      var considered := Consider(seen, inp.readAt, lease);
      if considered.None? {
        return Ok(seen);
      }
      if !inp.recipientKnown {
        return Err(RecipientNotFound);
      }
      var notification := considered.value;
      ConsideredIsWritable(seen, lease, inp);
      repository.Interrupt(seen, first);
      if inp.rejection.Some? {
        var updated := Rejected(notification, inp.rejection.value, inp.decideAt);
        repository.Save(updated.value);
        return Ok(updated.value);
      }
      if inp.resolver.Fails? {
        return Err(TemplateFailed);
      }
      var processing := ClaimEntity(notification, seen.status, inp.Rendered(), inp.decideAt);
      r := ClaimAndSend(processing.value, seen.status, second, inp);
    }

    /** Claim the row, unless others got there first, and go on to the provider. */
    method ClaimAndSend(processing: Notification, expected: Status, second: Others, inp: Inputs)
      returns (r: Result<Notification, ServiceError>)
      requires repository.Valid() && processing.Valid() && processing.status.Processing?
      requires processing.id in repository.rows && repository.rows[processing.id].projectId == processing.projectId
      requires expected in {Pending, Postponed, Processing} && second.Fits(processing.id, processing.projectId)
      modifies repository
      ensures repository.Valid()
      ensures var row := old(repository.rows)[processing.id];
              var cutoff := if expected.Processing? then Some(inp.readAt - lease) else None;
              var (attempt, updated) := Concluded(processing, inp);
              if ClaimRow(row, processing, expected, cutoff).None? then
                && r == Ok(row)
                && repository.rows == old(repository.rows) && repository.attempts == old(repository.attempts)
              else
                && updated.Ok?
                && repository.rows == old(repository.rows)[processing.id := updated.value]
                && repository.attempts == old(repository.attempts) + second.attempts + [attempt]
                && r == if inp.address != "" && inp.answer.Raised? then Err(ProviderRaised(inp.answer.error))
                        else Ok(updated.value)
    {
      var staleBefore := if expected.Processing? then Some(inp.readAt - lease) else None;
      var claimed := repository.ClaimForDelivery(processing, expected, staleBefore);
      if !claimed.value {
        var current := repository.GetById(processing.id, processing.projectId);
        return Ok(if current.Some? then current.value else processing);
      }
      repository.Interrupt(repository.rows[processing.id], second);
      r := Send(processing, inp);
    }

    /** After a successful claim: contact the provider and record the outcome. */
    method Send(processing: Notification, inp: Inputs) returns (r: Result<Notification, ServiceError>)
      requires repository.Valid()
      requires processing.Valid() && processing.status.Processing?
      modifies repository
      ensures repository.Valid()
      ensures var (attempt, updated) := Concluded(processing, inp);
              && updated.Ok?
              && repository.rows == old(repository.rows)[processing.id := updated.value]
              && repository.attempts == old(repository.attempts) + [attempt]
              && r == if inp.address != "" && inp.answer.Raised? then Err(ProviderRaised(inp.answer.error))
                      else Ok(updated.value)
    {
      if inp.address == "" {
        r := Fail(processing, NoAddressError(processing), None, inp.outcomeAt);
        return;
      }
      match inp.answer {
        case Raised(error) =>
          repository.LogAttempt(Attempt(processing.id, false, Some(inp.address), Some(error)));
          var released := Apply(processing, RetryDelivery, inp.outcomeAt);
          repository.Save(released.value);
          r := Err(ProviderRaised(error));
        case Accepted =>
          repository.LogAttempt(Attempt(processing.id, true, Some(inp.address), None));
          var delivered := Apply(processing, MarkDelivered, inp.outcomeAt);
          repository.Save(delivered.value);
          r := Ok(delivered.value);
        case Refused(error) =>
          r := Fail(processing, RefusalError(error), Some(inp.address), inp.outcomeAt);
      }
    }

    /** Record a failed attempt and make the failure final. */
    method Fail(processing: Notification, error: string, address: Option<string>, now: int)
      returns (r: Result<Notification, ServiceError>)
      requires repository.Valid() && error != ""
      requires processing.Valid() && processing.status.Processing?
      modifies repository
      ensures repository.Valid()
      ensures var updated := Apply(processing, MarkFailed(error), now);
              && updated.Ok? && r == Ok(updated.value)
              && repository.rows == old(repository.rows)[processing.id := updated.value]
      ensures repository.attempts == old(repository.attempts) + [Attempt(processing.id, false, address, Some(error))]
    {
      repository.LogAttempt(Attempt(processing.id, false, address, Some(error)));
      var updated := Apply(processing, MarkFailed(error), now);
      repository.Save(updated.value);
      r := Ok(updated.value);
    }
  }

  class NotificationCancellationService {
    const repository: NotificationRepository

    constructor (repository: NotificationRepository)
      ensures this.repository == repository
    {
      this.repository := repository;
    }

    /** Cancel a notification of the project.  It succeeds exactly when the row reads as
        PENDING both at the read and, after whatever another transaction commits
        `meanwhile`, at the conditional write; otherwise that row stands. */
    method Cancel(projectId: nat, id: nat, meanwhile: Option<Notification>, now: int) returns (r: Option<ServiceError>)
      requires repository.Valid()
      requires meanwhile.Some? ==> meanwhile.value.Valid() && meanwhile.value.id == id
      modifies repository
      ensures repository.Valid() && repository.attempts == old(repository.attempts)
      ensures match Lookup(old(repository.rows), id, projectId)
              case None => r == Some(NotificationNotFound) && repository.rows == old(repository.rows)
              case Some(row) =>
                if !row.status.Pending? then
                  && r == Some(Entity(InvalidTransition(row.status, Cancelled)))
                  && repository.rows == old(repository.rows)
                else
                  var between := if meanwhile.Some? then old(repository.rows)[id := meanwhile.value]
                        else old(repository.rows);
                  match Lookup(between, id, projectId)
                  case None => r == Some(NotificationNotFound) && repository.rows == between
                  case Some(current) =>
                    if !current.status.Pending? then
                      && r == Some(Entity(InvalidTransition(current.status, Cancelled)))
                      && repository.rows == between
                    else
                      && r == None
                      && repository.rows
                         == between[id := current.(status := Cancelled, cancellationReason := None, updatedAt := now)]
    {
      var found := repository.GetById(id, projectId);
      if found.None? {
        return Some(NotificationNotFound);
      }
      var cancelled := Apply(found.value, MarkCancelled(None), now);
      if cancelled.Err? {
        return Some(Entity(cancelled.error));
      }
      if meanwhile.Some? {
        repository.Save(meanwhile.value);
      }
      var matched := repository.CancelPending(cancelled.value);
      if matched {
        return None;
      }
      var current := repository.GetById(id, projectId);
      if current.None? {
        return Some(NotificationNotFound);
      }
      r := Some(Entity(InvalidTransition(current.value.status, Cancelled)));
    }
  }
}
