# A verified model of Tiber's notification pipeline

Tiber accepts a request once, expands it into one notification per channel by a leased
worker, publishes the work through a transactional outbox, and delivers each notification
by competing workers.  This Dafny project models those protocols and the decision code
around them, and proves what they keep.  `dafny verify dfyconfig.toml` checks everything.

Instants are integer microseconds, ids and token or key hashes are abstract, time zones are
fixed offsets from UTC, and the provider, the decision model, the policy's verdicts, clock
readings and commit failures are arbitrary inputs.

How the model is laid out:

- `Domain`, `NotificationEntity`, `NotificationIntake`: the values and the two entities,
  each with its construction checks and state machine (`Apply` follows
  `domain/entities/notification.py`; `Claim`, `WithPlan`, `Complete` and `Fail` follow
  `domain/entities/notification_intake.py`; `Child` follows `_build_child` and
  `_apply_policy`).
- `DeliveryProtocol`, `DeliverySafety`, `DeliveryWitnesses`, `ProviderCalls`,
  `DeliveryService`: one row and any number of workers as a step relation; its safety; runs
  that show each hypothesis is needed; how often the provider takes on a message; and the
  services as classes over stored tables, proved to take steps of that relation whatever
  others commit in between.
- `QuietHours`, `PolicyResolver`, `PolicyVerdicts`, `Postponement`: time-of-day arithmetic on
  a circle, the rule chain (taken as a parameter: the intake chain and the dispatch chain are
  two constants), what these two decide, and what repeated postponement does to a
  notification row.
- `Placeholders`, `TemplateRendering`: both placeholder scanners against one independent
  definition of what a placeholder is, and rendering against the unique split of a text.
- `DecisionConstraints`, `PlanAssembly`: what accept time allows, and the plan that any
  model output whatsoever is turned into.
- `Outbox`, `OutboxRelay`, `OutboxRuns`: the queue, one relay pass, and whole runs in which
  messages are enqueued and relays drain the table.
- `IntakeProtocol`, `IntakeSafety`, `IntakeWitness`, `IntakeProcessor`, `IntakeRuns`: the
  three transactions of the expansion with leases, crashes and full-row overwrites.
- `IntakeAccept`, `IntakeAcceptService`, `AcceptedExpansion`: any number of clients accepting
  under idempotency keys, the checks a request has to pass, what is kept of them, and that an
  accepted request gets through.
- `UnitOfWork`, `TransactionTrees`: the depth counter and savepoint stack, and the meaning
  of transaction trees that every well-nested run has.
- `ApiKeyCache`, `ApiKeyProtocol`, `ApiKeyAnswers`, `ApiKeyWitnesses`: authentication through
  a cache against the database alone, first with atomic use cases, then with interleaved
  steps.
- `ResetTokens`: issuing by several commands, consuming by one script.

What a reader should know about the hypotheses:

- The protocols have one clock that all workers and requests share and that never runs
  backwards.  Skew between the clocks of workers would have to be taken off their leases.
- Successes are logged exactly once only if no holder overruns its lease, measured from the
  stamp it wrote, and if no policy rejection lands on a row that has changed since it was
  read (`RejectionsFresh`).  Outcome writes and rejection writes overwrite the row
  unconditionally; `OverrunDeliversTwice` and `StaleRejectionDeliversTwice` are the runs in
  which one of the two conditions fails and two successes are logged.
- What the provider takes on is not what is logged: a worker that crashes, or gets a wrong
  answer, after its message was taken on leaves a row that is sent again, with every lease
  kept (`CrashIsAcceptedTwice`).  `AcceptedOnceUnlessLost` bounds the messages taken on by
  one more than such losses.
- One child per channel and the announcements hold in every interleaving of intake
  workers; that plans and final statuses never change needs runs not to overlap
  (`OverlapOverwrites`), which `LeasesPreventOverlap` derives from kept leases.
- A revoked key stays acceptable for at most five minutes and the duration of a request after
  its revocation is first committed.  The stored revocation time is taken before the commit
  (`application/services/api_key_management.py:116`), so no such bound counts from it alone
  (`StampsAreTooEarly`).
- That due times never move back, and the bound on waiting, need settings that are not
  negative; that dead-lettering and publishing exclude each other needs nothing.
- A relay pass handles each row once only if a retry delay is positive or nothing is ever
  retried (`RetriesMoveForward`); `StuckRetriesRepeat` shows the condition is exact.

Where the code and its own comments differ, the model follows the code:

- `domain/policies/rules.py:15-34`: the docstring says "at or after"; the result is strictly
  after (`NextWindowEndIsLeast`).
- `domain/value_objects/intake.py:113-124`: the client's topic counts as declaring a category
  and the docstring says that the model is then not asked for one; but it is asked, and the
  plan takes a category only from the explicit field, the model or the default
  (`TopicsDoNotDeclareCritical`).
- `domain/services/template_variables.py:28` against `domain/value_objects/placeholders.py:17`:
  the two patterns disagree on names with a leading digit (`LeadingDigitsSlipThrough`).
- `infrastructure/cache/api_keys.py:91`: a usable entry is said never to outlive the key's
  expiry; with less than a second left it does (`UsableEntriesAreShortLived`), harmlessly,
  since the facts are judged again on every request.
- `application/services/intake_processor.py:124-134`: accept-time checks are said to leave only
  edited templates to fail at fan-out.  Without any edit a supplied value of None, a name with
  a leading digit (`LeadingDigitsSlipThrough`) and a value that leaves the body blank
  (`BlankValuesSlipThrough`) fail as well, and nothing else does (`AcceptedRequestsComplete`).

## Model

| member | source | states |
|---|---|---|
| `DeliverySafety.MutualExclusion` | backend/src/tiber/application/services/delivery.py:94-166 | In every interleaving of readers, claims, sends, outcome writes, cancels, crashes and clock ticks: either some holder had overrun the lease it stamped, or there is at most one worker between claim and outcome and the row is PROCESSING under its stamp |
| `DeliverySafety.DeliveredExactlyOnce` | backend/src/tiber/application/services/delivery.py:170-288 | While leases are kept, a row is DELIVERED if and only if exactly one success is logged for it, and never more than one is |
| `DeliverySafety.TerminalRowsAreFinal` | backend/src/tiber/application/services/delivery.py:204-288 | While leases are kept, a DELIVERED, FAILED, BOUNCED, SUPPRESSED or CANCELLED row never changes again |
| `DeliverySafety.NoCallAfterTheEnd` | backend/src/tiber/application/services/delivery.py:168-202 | While leases are kept, a provider call begins only on a row that is PROCESSING with no other holder, so none begins once the row was DELIVERED or CANCELLED |
| `DeliverySafety.ClaimAgainstHolder` | backend/src/tiber/infrastructure/repositories/sqlalchemy_notification_repository.py:68-104 | While someone holds the row, a competing claim wins if and only if it is a reclaim of this very row whose cutoff lies at or after the stamp of the holder |
| `DeliverySafety.WritersAreAlone` | backend/src/tiber/application/services/delivery.py:110-166 | Any write to the row comes from the one holder or finds no holder at all |
| `DeliverySafety.OnlySuccessDelivers` | backend/src/tiber/application/services/delivery.py:227-244 | Only an accepted send makes a row DELIVERED, and logs a success in the same step |
| `DeliverySafety.DeliveredIsAlwaysLogged` | backend/src/tiber/application/services/delivery.py:204-244 | With no assumption on leases or policy writes, a DELIVERED row has a success in its log |
| `DeliverySafety.AbandonedRowsCanBeReclaimed` | backend/src/tiber/application/services/delivery.py:94-166 | After a crash, once the lease has run out, any idle worker can read, prepare and claim the row |
| `DeliveryProtocol.TakenUpExactlyWhenDue` | backend/src/tiber/application/services/delivery.py:94-110 | A worker goes on with a row if and only if it is unfinished, its send time, if any, has come, a postponed one has one, and no lease on it is running; a postponed one becomes PENDING again |
| `DeliverySafety.NothingIsTakenUpEarly` | backend/src/tiber/application/services/delivery.py:80-110 | In every execution, whatever the leases: from its read to its outcome, no worker has a notification in hand before its send time |
| `DeliverySafety.NothingIsSentEarly` | backend/src/tiber/application/services/delivery.py:80-110 | So no notification is handed to the provider, or taken on by it, before its send time |
| `DeliveryWitnesses.OverrunDeliversTwice` | backend/src/tiber/application/services/delivery.py:204-288 | The lease hypothesis is needed: for any fresh row and any lease there is a run, without a policy rejection, in which two sends succeed |
| `DeliveryWitnesses.StaleRejectionDeliversTwice` | backend/src/tiber/application/services/delivery.py:118-139 | The hypothesis on policy rejections is needed: for any fresh row and any positive lease there is a run that keeps every lease, in which two sends succeed because a rejection was written over a delivered row |
| `ProviderCalls.EveryAcceptanceIsAccountedFor` | backend/src/tiber/application/services/delivery.py:170-244 | In every execution, without any hypothesis: each time the provider takes on the message, this is logged as a success, is lost to a crash or a wrong answer, or is still under way |
| `ProviderCalls.AcceptedOnceUnlessLost` | backend/src/tiber/application/services/delivery.py:168-244 | While leases are kept, the provider takes on the message at most once more than acceptances are lost, and exactly once more when the row is DELIVERED |
| `ProviderCalls.CrashIsAcceptedTwice` | backend/src/tiber/application/services/delivery.py:168-244 | A lost acceptance does matter: for any fresh row and any positive lease there is a run that keeps every lease, without a policy rejection and with one logged success, in which the provider takes on the message twice |
| `DeliveryService.DeliveryIsAProtocolRun` | backend/src/tiber/application/services/delivery.py:74-202 | The effect of one delivery run, with any number of other commits between its read and its claim and again between its claim and its outcome, is the effect of steps of the protocol |
| `DeliveryService.NotificationDeliveryProcessor.Process` | backend/src/tiber/application/services/delivery.py:74-202 | The run over the stored tables amid other commits, case by case: missing row, leased, not due, finished, unknown recipient, policy rejection, failing template, lost claim, no address, and each answer of the provider, with the whole new table and log; in particular a row that is not due, by status and send time, leaves the row, the table and the log as they were |
| `DeliveryService.AnswersDecideTheOutcome` | backend/src/tiber/application/services/delivery.py:141-288 | A due row that nobody disturbs and the policy lets pass: no address or a refusal make it FAILED with that error, an exception puts it back to PENDING, success makes it DELIVERED; the one attempt logged says the same, and nothing else of the row changes but the rendered content |
| `DeliveryService.RejectionsDecideTheOutcome` | backend/src/tiber/application/services/delivery.py:118-139 | A due row the policy rejects is POSTPONED to the resume time or SUPPRESSED with the reason; no attempt is logged and nothing else of the row changes |
| `DeliveryService.DueRowsAreClaimed` | backend/src/tiber/application/services/delivery.py:141-166 | A due row is claimed with nothing changed but status, stamp and, for a template, its content |
| `DeliveryService.NotificationDeliveryProcessor.ClaimAndSend` | backend/src/tiber/application/services/delivery.py:157-202 | The provider is called only after the claim has matched the row as it is by then; otherwise that row is the answer |
| `DeliveryService.NotificationDeliveryProcessor.Send` | backend/src/tiber/application/services/delivery.py:168-288 | After a claim: exactly one attempt is logged and the row is overwritten with the outcome that belongs to it |
| `DeliveryService.NotificationDeliveryProcessor.Fail` | backend/src/tiber/application/services/delivery.py:246-270 | A failure logs a failed attempt with its error and makes the row FAILED |
| `DeliveryService.NotificationRepository.ClaimForDelivery` | backend/src/tiber/infrastructure/repositories/sqlalchemy_notification_repository.py:68-104 | Compare-and-set: matches on id, project, expected status and, for a reclaim, the cutoff; a reclaim without a cutoff is an error |
| `DeliveryService.NotificationRepository.CancelPending` | backend/src/tiber/infrastructure/repositories/sqlalchemy_notification_repository.py:50-66 | Cancels exactly when the stored row is still PENDING, touching three columns only |
| `DeliveryService.NotificationCancellationService.Cancel` | backend/src/tiber/application/services/notification_cancellation.py:27-47 | Succeeds exactly when the row is PENDING at the read and, after whatever commits in between, at the conditional write; otherwise the error names the current status and the row stands |
| `NotificationEntity.HistoriesStayValid` | backend/src/tiber/domain/entities/notification.py:44-99 | Over any history of transitions a notification stays the same notification, the reasons and times it stores fit its status, and in a terminal status only its content can change |
| `NotificationEntity.TransitionsFollowTheirArrows` | backend/src/tiber/domain/entities/notification.py:219-380 | The state machine as a table: from which statuses each transition can leave and where it leads, and that it changes nothing else but the stamp and the one field it is about |
| `NotificationEntity.ConstructionNeverRefuses` | backend/src/tiber/domain/entities/notification.py:219-380 | The construction checks never refuse a transition of a valid notification: refusals come only from the source status, an empty reason, or scheduling what is not the model's to schedule |
| `QuietHours.NextWindowEndIsLeast` | backend/src/tiber/domain/policies/rules.py:15-34 | The result is the least instant strictly later than the argument with the time of day of the window's end, at most a day away |
| `QuietHours.CoversByGap` | backend/src/tiber/domain/policies/rules.py:237-241 | Midnight wrap: a time is covered if and only if it is not strictly inside the circular gap from end to start |
| `QuietHours.ResumesOutsideItsWindow` | backend/src/tiber/domain/policies/rules.py:243-273 | The resume time is outside its own window if and only if the gap exceeds the five-minute grace (for ends on the whole second; with the exact correction otherwise) |
| `QuietHours.ResumeTimeOfDay` | backend/src/tiber/domain/policies/rules.py:12-34 | Resuming is strictly later, at most a day and the grace away, at a time of day that depends on the window alone |
| `PolicyResolver.AllowedSoonOrNever` | backend/src/tiber/domain/policies/rules.py:243-328 | Judged again at its own resume time, a notification is let through within as many postponements as the chain has windows for its channel, or never |
| `PolicyResolver.TrailsIncrease` | backend/src/tiber/domain/policies/rules.py:69-169 | Successive resume times strictly increase |
| `PolicyResolver.LongTrailsNeverEnd` | backend/src/tiber/domain/policies/rules.py:243-273 | A trail longer than the list of windows hits a window at its end as well |
| `PolicyResolver.SingleWindow` | backend/src/tiber/domain/policies/rules.py:237-273 | With one window, a postponed notification is let through at its resume time if and only if the gap exceeds the grace (for ends on the whole second; with the exact correction otherwise) |
| `PolicyResolver.ChainReflects` | backend/src/tiber/domain/policies/rules.py:276-328 | The decision of a chain against its windows: it allows only when none covers the instant, and it postpones to the end of the first that does |
| `PolicyResolver.QuietVerdictIgnoresOrder` | backend/src/tiber/domain/policies/rules.py:243-273 | Whether a list of quiet hours rejects does not depend on its order |
| `PolicyResolver.ShippedChainsShareTheirWindows` | backend/src/tiber/domain/policies/rules.py:332-342 | The intake chain and the dispatch chain consult the same windows in the same order: one of the recipient and those of the project |
| `PolicyVerdicts.ShippedVerdicts` | backend/src/tiber/domain/policies/rules.py:37-342 | What the intake chain and the dispatch chain decide, in terms of the recipient and the project: CRITICAL always passes; anything else passes if and only if it has an address (intake only), category, channel and topic are consented to, no personal or project blackout is on and no window is; it is suppressed if and only if it is barred or a project blackout is on while the recipient is not quiet; otherwise it is postponed past the window of the recipient, or else the first one of the project, that is on |
| `PolicyVerdicts.OneDecisionFits` | backend/src/tiber/domain/policies/rules.py:37-342 | That description leaves exactly one decision, so each of its cases is an if-and-only-if |
| `PolicyVerdicts.QuietVerdict` | backend/src/tiber/domain/policies/rules.py:243-273 | A list of windows postpones five minutes past the next end of the first window that is on |
| `Postponement.DeliveredSoonOrNever` | backend/src/tiber/application/services/delivery.py:102-139 | A notification row that deliveries postpone again and again is judged at strictly later instants, always in the same context, and is let through after at most as many postponements as the chain has windows for its channel, or never |
| `Postponement.RoundsAreATrail` | backend/src/tiber/application/services/delivery.py:102-139 | The instants at which successive deliveries of the row judge it are the resume times of the rules, one after the other |
| `Postponement.RejudgedAtItsResumeTime` | backend/src/tiber/application/services/delivery.py:102-139 | A postponed row is taken up exactly from its resume time on, and is then judged at that resume time, whatever the clock shows |
| `Postponement.DueRowsAreJudged` | backend/src/tiber/application/services/delivery.py:102-139 | A due row is judged by the dispatch chain at its send time, which has come, or else at the present, and the verdict follows from the category, channel and topic of the row and from its recipient and project at that instant |
| `Placeholders.NamesAreWords` | backend/src/tiber/domain/value_objects/placeholders.py:17 | Names are non-empty words of letters, digits and underscores; at accept time they do not start with a digit |
| `Placeholders.MatchIsPlaceholder` | backend/src/tiber/domain/value_objects/placeholders.py:17-28 | The matcher splits a text at a real placeholder |
| `Placeholders.PlaceholderIsMatched` | backend/src/tiber/domain/value_objects/placeholders.py:17-28 | Every text that starts with a placeholder is matched there, with that name and that rest |
| `Placeholders.PlaceholdersAreUnambiguous` | backend/src/tiber/domain/value_objects/placeholders.py:17 | A text starts with at most one placeholder, whichever of the two patterns is used |
| `Placeholders.ScannersAgree` | backend/src/tiber/domain/services/template_variables.py:28-35 | On every text the accept-time scanner finds exactly the render-time names without a leading digit, in order |
| `Placeholders.SplitReads` | backend/src/tiber/domain/services/render.py:60-71 | Every text splits losslessly into literals and placeholders, read from left to right |
| `Placeholders.ReadingsAreUnique` | backend/src/tiber/domain/services/render.py:60-71 | There is only one such reading |
| `Placeholders.FindAllNamesTheSplit` | backend/src/tiber/domain/value_objects/placeholders.py:20-28 | The extracted names are those of the placeholders of the reading, in order |
| `TemplateRendering.RenderingFollowsTheReading` | backend/src/tiber/domain/services/render.py:60-71 | Rendering keeps every literal verbatim and in order and puts a value in place of each placeholder |
| `TemplateRendering.RenderingFillsTheReadings` | backend/src/tiber/domain/services/render.py:33-71 | Rendering a content, by any reading of its title and body: it reports exactly the placeholder names without a value; otherwise title and body are filled in (an absent or empty title becomes absent), actions and images stand, and only a blank result is refused |
| `TemplateRendering.ValuesAreNotRescanned` | backend/src/tiber/domain/services/render.py:60-71 | A value lands in the output verbatim even when it spells a placeholder |
| `TemplateRendering.OnlyExtractedNamesMatter` | backend/src/tiber/domain/services/render.py:46-71 | Only the values of extracted names influence the output |
| `TemplateRendering.PlainTextStands` | backend/src/tiber/domain/services/render.py:60-71 | A text without placeholders renders to itself |
| `TemplateRendering.AskedForWhatIsRendered` | backend/src/tiber/domain/services/template_variables.py:31-49 | Accept time asks for exactly the render-time names of title and body that have no leading digit, and possibly more |
| `TemplateRendering.RenderFailsExactlyWhen` | backend/src/tiber/domain/services/render.py:46-58 | With all asked-for variables supplied, values are missing if and only if a supplied one has no value or a name with a leading digit was not supplied |
| `TemplateRendering.LeadingDigitsSlipThrough` | backend/src/tiber/domain/services/template_variables.py:28 | The two patterns do differ: a template that passes accept time and cannot be rendered |
| `TemplateRendering.BlankValuesSlipThrough` | backend/src/tiber/domain/services/render.py:60-71 | A request that supplies every variable can still fail: a template whose body a blank value leaves blank |
| `TemplateRendering.CollectVariables` | backend/src/tiber/domain/services/template_variables.py:38-49 | The loops over actions and images collect every accept-time name of the content |
| `DecisionConstraints.ComputeConstraints` | backend/src/tiber/domain/services/decision_constraints.py:49-123 | The step-by-step computation, error by error, against its specification |
| `DecisionConstraints.CollectProblems` | backend/src/tiber/domain/services/decision_constraints.py:126-149 | The loop over candidates maps exactly those that cannot deliver to their reasons, in any order |
| `DecisionConstraints.FeasibleMeansDeliverable` | backend/src/tiber/domain/services/decision_constraints.py:49-123 | Returned constraints leave only channels that have an address and can be rendered, and admit CRITICAL if and only if the client declared it |
| `DecisionConstraints.NamedChannelsAllOrNothing` | backend/src/tiber/domain/services/decision_constraints.py:65-123 | Named channels are accepted if and only if every one of them can deliver |
| `DecisionConstraints.AddressesAllOrNothing` | backend/src/tiber/domain/services/decision_constraints.py:65-123 | A request with addresses is accepted if and only if it names no channels, has an address, and every one can deliver; then all of them are feasible |
| `DecisionConstraints.DeliverableExactlyWhen` | backend/src/tiber/domain/services/decision_constraints.py:126-149 | A channel can deliver if and only if it is available and the template has a variant whose every variable is supplied, or, without a template, there is a content, with a title on e-mail and without one on SMS |
| `DecisionConstraints.OpenCategories` | backend/src/tiber/domain/services/decision_constraints.py:30-123 | The categories left open are the client's own, or all but CRITICAL with INFORMATIONAL as the default; who chooses the channels follows from what the client gave |
| `DecisionConstraints.ModelChoosesAmongReachable` | backend/src/tiber/domain/services/decision_constraints.py:90-123 | Left to the model, acceptance is possible if and only if some channel can deliver; opted-out channels count only when there is no other |
| `DecisionConstraints.FeasibleTemplatesRender` | backend/src/tiber/domain/services/decision_constraints.py:126-149 | A template channel judged feasible lacks values at render time if and only if a value is None or a name starts with a digit |
| `PlanAssembly.WantedDecisions` | backend/src/tiber/domain/services/plan_assembly.py:38-58 | The set filled step by step is the set of open decisions |
| `PlanAssembly.AlphabeticalIsBySpelling` | backend/src/tiber/domain/services/plan_assembly.py:103 | The fixed channel order is the alphabetical order of the stored spellings |
| `PlanAssembly.EveryAnswerGivesAValidPlan` | backend/src/tiber/domain/services/plan_assembly.py:61-148 | Whatever the model answers, an accepted request gets a valid plan: unique non-empty channels that were feasible and addressed, within the limit, send times only for them and in the future, CRITICAL if and only if declared |
| `PlanAssembly.AssembledPlansKeep` | backend/src/tiber/domain/services/plan_assembly.py:74-148 | The same for any constraints and payload that belong together |
| `PlanAssembly.AcceptedIsCompatible` | backend/src/tiber/application/services/notification_intake.py:117-145 | The payload and constraints of an accepted request belong together |
| `PlanAssembly.AcceptedExactlyWhen` | backend/src/tiber/domain/value_objects/intake.py:60-124 | Besides its channels a request is accepted if and only if it has no variables without a template, its category is that of its topic if it gives both, and a send time has a time zone and goes with nothing CRITICAL |
| `PlanAssembly.ChosenChannels` | backend/src/tiber/domain/services/plan_assembly.py:96-124 | Channel selection always succeeds, with unique feasible channels within the limit, all of them unless the model chooses |
| `PlanAssembly.DecisionsFollowTheAnswer` | backend/src/tiber/application/services/intake_processor.py:161-198 | Precedence, decision by decision: the client's choice, then the model's as far as it is allowed, then the default, each with its source; the topic the model names counts only if one is wanted and the project has it |
| `PlanAssembly.ChannelsAreChosen` | backend/src/tiber/domain/services/plan_assembly.py:96-135 | The channels of a plan, in order: the named ones, each once; the addressed ones, alphabetically; or the first feasible ones of the suggestion, each once, up to the limit, and without a feasible one there the feasible channel that comes first in in-app, push, e-mail, SMS |
| `PlanAssembly.ConformingSuggestionsAreFollowed` | backend/src/tiber/domain/services/plan_assembly.py:61-148 | A list of channels without repetitions inside the constraints is followed to the letter |
| `PlanAssembly.OnlyWantedFieldsMatter` | backend/src/tiber/application/services/intake_processor.py:161-198 | Two suggestions that agree on the wanted fields and the version give the same plan |
| `PlanAssembly.NoAnswerIsNoOpinion` | backend/src/tiber/application/services/intake_processor.py:161-210 | No answer gives the same plan as an empty suggestion |
| `PlanAssembly.TopicsDoNotDeclareCritical` | backend/src/tiber/domain/value_objects/intake.py:113-124 | A request on a CRITICAL topic without an explicit category counts as declared CRITICAL for its send time, but its plan never is CRITICAL |
| `Outbox.DueInOrderIsSorted` | backend/src/tiber/infrastructure/repositories/sqlalchemy_outbox.py:83-112 | The queue order lists exactly the due rows, each once, strictly ascending by priority, due time and id |
| `Outbox.TakingTheFirst` | backend/src/tiber/infrastructure/repositories/sqlalchemy_outbox.py:83-112 | A row that stops being due when it is taken leaves the rest of the order as it was |
| `Outbox.OutboxTable.ClaimNext` | backend/src/tiber/infrastructure/repositories/sqlalchemy_outbox.py:83-112 | Returns the first due row of that order, and nothing only if nothing is due; of all rows that are neither published nor given up and whose time has come it is the first by priority, due time and id |
| `Outbox.OutboxTable.MarkFailed` | backend/src/tiber/infrastructure/repositories/sqlalchemy_outbox.py:122-141 | Counts the attempt, notes the error up to its limit, and either sets the next due time or dead-letters the row |
| `OutboxRelay.OutboxRelayService.RelayNext` | backend/src/tiber/application/services/outbox_relay.py:52-81 | One transaction: the next due row is published or its failure recorded, and no other row changes |
| `OutboxRelay.OutboxRelayService.RelayAvailable` | backend/src/tiber/application/services/outbox_relay.py:48-83 | The loop leaves the rows and returns the number of the specified pass |
| `OutboxRelay.FrozenPass` | backend/src/tiber/application/services/outbox_relay.py:48-83 | With a frozen clock a pass handles exactly the first due rows, as many as the batch takes, in order and each once, for any pattern of failures, and returns how many were published |
| `OutboxRelay.FrozenPassRowByRow` | backend/src/tiber/application/services/outbox_relay.py:57-82 | The j-th due row is handled with the j-th outcome, and every other row stands |
| `OutboxRelay.StuckRetriesRepeat` | backend/src/tiber/application/services/outbox_relay.py:107-112 | Its condition is exact: whenever a retry delay can be zero or negative, a pass can handle one row twice |
| `OutboxRelay.NegativeDelaysMoveBack` | backend/src/tiber/application/services/outbox_relay.py:107-112 | A failure never moves the due time back if and only if neither setting is negative |
| `OutboxRelay.DelaysDouble` | backend/src/tiber/application/services/outbox_relay.py:107-112 | The delay starts at min(base, cap) and each next one is min(twice the previous one, cap), for every cap that is not negative |
| `OutboxRuns.PassesAreLives` | backend/src/tiber/application/services/outbox_relay.py:48-83 | A relay pass over a table does to every row exactly what the iterations that take it do, and handles exactly the rows that some iteration takes |
| `OutboxRuns.RowsAreLives` | backend/src/tiber/application/services/outbox_relay.py:48-83 | In every run of insertions, passes and iterations of other relays, each message's row is its original row after the iterations that took it |
| `OutboxRuns.EveryMessageSettles` | backend/src/tiber/application/services/outbox_relay.py:57-82 | In every state of every such run, whatever the settings and the clock: no message is both published and dead-lettered, each is dead-lettered if and only if its attempts are used up, and each is still the message enqueued under its id |
| `OutboxRuns.RowsTellTheirStory` | backend/src/tiber/application/services/outbox_relay.py:57-82 | In every state of every run, the row of a message is as enqueued until an iteration takes it; of the n that took it the earlier ones all failed; and the k-th failure sets the due time to its mark plus min(base*2^(k-1), cap) seconds, or, being the last attempt, gives the message up |
| `OutboxRuns.CriticalGoesFirst` | backend/src/tiber/infrastructure/repositories/sqlalchemy_outbox.py:58-112 | In every run a due message about something CRITICAL goes before any ordinary one, and among messages of one sort the one due earlier |
| `OutboxRuns.NeverPublishedEarly` | backend/src/tiber/infrastructure/repositories/sqlalchemy_outbox.py:58-112 | In every run no message is due or published before the send time it was enqueued with |
| `OutboxRuns.DueTimesNeverMoveBack` | backend/src/tiber/application/services/outbox_relay.py:57-82 | Between any two states of a run no row's due time moves back |
| `OutboxRuns.SettledRowsStand` | backend/src/tiber/infrastructure/repositories/sqlalchemy_outbox.py:83-112 | Once published or dead-lettered a row stands for the rest of the run, and no later pass handles it |
| `OutboxRuns.TotalWaitIsBounded` | backend/src/tiber/application/services/outbox_relay.py:107-112 | In every run the retry delays scheduled for a message total at most min(base*(2^(n-1)-1), (n-1)*cap) seconds for n attempts |
| `OutboxRuns.GivenUpMessagesReachTheBound` | backend/src/tiber/application/services/outbox_relay.py:57-112 | The bound is reached: in every run a message that is given up has waited base*(2^(n-1)-1) seconds if the cap never binds, and (n-1)*cap seconds if it always does |
| `OutboxRuns.WaitingMessagesCanBeGivenUp` | backend/src/tiber/application/services/outbox_relay.py:57-82 | And every waiting message of every run can come to that |
| `NotificationIntake.ChangesOfAnIntake` | backend/src/tiber/domain/entities/notification_intake.py:170-215 | Which changes an intake admits: a free or expired lease can be taken, a plan goes only to one being processed, it completes only with a plan, and fails only for a reason and before it has ended; each change touches nothing else |
| `NotificationIntake.ContentExactlyWhen` | backend/src/tiber/application/services/intake_processor.py:284-306 | A child gets the request's own content if and only if the channel can carry it, and with a template exactly what the variant of its channel renders to, if it is still there |
| `NotificationIntake.ChildrenAreWellBuilt` | backend/src/tiber/application/services/intake_processor.py:248-320 | Building a child never fails; it is for the intake's recipient, project and transaction, on the plan's topic and category and the request's template, with the basis and due time that follow from the request and the plan; its status is the policy's, and a postponed one is due at its resume time |
| `IntakeSafety.AlwaysSound` | backend/src/tiber/application/services/intake_processor.py:214-246 | In every interleaving, expired leases and crashes included: one child per channel, announcements exactly for the children to be delivered, and COMPLETED implies a child for every planned channel |
| `IntakeSafety.AnnouncementsAreOneToOne` | backend/src/tiber/application/services/intake_processor.py:237-246 | In every interleaving the dispatch entries correspond one to one with the children created PENDING or POSTPONED, each for its child's due time and ahead of the others if CRITICAL |
| `IntakeSafety.AnnouncedOnce` | backend/src/tiber/application/services/intake_processor.py:237-246 | Children with distinct ids are announced at most once each, and exactly when pending or postponed |
| `IntakeSafety.AcceptTimeIsKept` | backend/src/tiber/application/services/intake_processor.py:161-246 | In every interleaving, overwritten plans included: every child is for the accepted request's recipient, project and transaction, on a channel that was feasible at accept time, CRITICAL if and only if the client declared it, and of the category, topic, template, content and send time that the client gave; and every plan ever stored keeps to the accepted request |
| `IntakeSafety.WithoutOverlap` | backend/src/tiber/application/services/intake_processor.py:107-149 | When runs do not overlap, at most max_attempts claims pass the attempt gate, and COMPLETED means the children's channels are exactly the plan's, in order, so at least one and no more than accept time allowed |
| `IntakeSafety.PlansAndEndsAreFinal` | backend/src/tiber/domain/entities/notification_intake.py:191-215 | When runs do not overlap, the plan is written once and never changes, and COMPLETED and FAILED are final |
| `IntakeSafety.LeasesPreventOverlap` | backend/src/tiber/domain/entities/notification_intake.py:170-189 | Runs overlap only after some worker has outlived its lease |
| `IntakeSafety.LeasesCanBeTakenOver` | backend/src/tiber/domain/entities/notification_intake.py:170-189 | A crash does not strand an intake: an idle worker can take its lease if and only if it was never taken or has run out, and that counts one attempt and changes nothing else but status and lease |
| `IntakeWitness.OverlapOverwrites` | backend/src/tiber/infrastructure/repositories/sqlalchemy_notification_intake_repository.py:310-313 | The hypothesis is needed: for every intake that leaves the model a choice of channels there is a run in which a worker that outlives its lease reopens the COMPLETED intake, replaces its plan, and completes it with children the plan does not name |
| `IntakeProcessor.IntakeStore.Insert` | backend/src/tiber/infrastructure/models/notification.py:47-52 | A second notification of a transaction on one channel is refused and stores nothing |
| `IntakeProcessor.IntakeProcessor.ClaimIntake` | backend/src/tiber/application/services/intake_processor.py:141-149 | Claims exactly an intake that is there, not locked and claimable, and stores the lease |
| `IntakeProcessor.IntakeProcessor.DecideAndStore` | backend/src/tiber/application/services/intake_processor.py:161-198 | Stores exactly the plan decided on, or nothing |
| `IntakeProcessor.IntakeProcessor.Prepare` | backend/src/tiber/application/services/intake_processor.py:113-121 | Too many attempts, an unknown recipient, the stored plan, or a new one, which is stored over whatever the row is by then |
| `IntakeProcessor.IntakeProcessor.BuildChildren` | backend/src/tiber/application/services/intake_processor.py:214-236 | The loop builds what the recursive specification builds, and stops at the first channel that cannot be rendered |
| `IntakeProcessor.IntakeProcessor.InsertAll` | backend/src/tiber/application/services/intake_processor.py:237-245 | The loop inserts each child with its announcement, and is refused if and only if a channel of the transaction would repeat |
| `IntakeProcessor.IntakeProcessor.SaveChildren` | backend/src/tiber/application/services/intake_processor.py:237-246 | All children, their announcements and the completed row, or, on a unique violation, nothing |
| `IntakeProcessor.IntakeProcessor.RecordFailure` | backend/src/tiber/application/services/intake_processor.py:322-330 | Fails the row as it is stored by then, unless it is locked, gone or finished |
| `IntakeProcessor.IntakeProcessor.Process` | backend/src/tiber/application/services/intake_processor.py:107-137 | The whole run over the stored tables, with others committing after its claim, after its plan and after its children are built: the intake, its children and the announcements end as specified, and nothing else changes |
| `IntakeRuns.ProcessingIsAProtocolRun` | backend/src/tiber/application/services/intake_processor.py:107-137 | Whatever others commit in between, that effect is the effect of steps of the protocol |
| `IntakeRuns.UndisturbedRunsEnd` | backend/src/tiber/application/services/intake_processor.py:107-137 | Undisturbed, a claimed intake ends COMPLETED if and only if it has an attempt left, a recipient, a plan and content for every outstanding channel, and FAILED otherwise with nothing added, with the whole final row; a stored plan is kept |
| `IntakeProcessor.BuildsTheOutstanding` | backend/src/tiber/application/services/intake_processor.py:228-236 | Building succeeds if and only if every outstanding channel has a content, and gives one child for each, in plan order, with its own content: the template as found by then, rendered, or the request's own content if it fits the channel |
| `IntakeAccept.OneIntakePerKey` | backend/src/tiber/infrastructure/repositories/sqlalchemy_notification_intake_repository.py:252-273 | In every interleaving of accepts, a project and key have at most one intake row and one outbox message, and rows and messages correspond |
| `IntakeAccept.SuccessesShareOneTransaction` | backend/src/tiber/application/services/notification_intake.py:98-189 | All successes under one key name one transaction and carry one document, and at most one is not marked replayed |
| `IntakeAccept.OnlyTheInsertionIsFresh` | backend/src/tiber/application/services/notification_intake.py:150-173 | A success is not marked replayed if and only if it is the commit that inserted its row |
| `IntakeAccept.AnswersAreTrue` | backend/src/tiber/application/services/notification_intake.py:155-189 | Whoever loses the race is answered from the winner's row and never with an error; a conflict means another document is stored; without a key nothing is a replay |
| `IntakeAccept.SameDocument` | backend/src/tiber/application/services/notification_intake.py:214-237 | Two requests have the same fingerprint document if and only if they differ at most in project, key, order of channels, spelling of addresses and zone of the send time |
| `IntakeAcceptService.IntakeRepository.Add` | backend/src/tiber/infrastructure/repositories/sqlalchemy_notification_intake_repository.py:252-273 | Inserts if and only if no stored row has the project and key |
| `IntakeAcceptService.NotificationIntakeService.InsertOrReplay` | backend/src/tiber/application/services/notification_intake.py:98-189 | Replay, refusal, insertion with its message, or the winner's answer; a failing commit undoes both insertions |
| `IntakeAcceptService.NotificationIntakeService.Accept` | backend/src/tiber/application/services/notification_intake.py:98-173 | The whole use case: refused if and only if a topic, template or recipient is unknown, the constraints or payload fail or the key is blank; and an intake is returned if and only if this call inserted it |
| `IntakeAcceptService.AcceptedExactlyWhen` | backend/src/tiber/application/services/notification_intake.py:98-153 | A request is accepted if and only if its topic, template and recipient are known, its channels work (addressed or named ones all, otherwise some), its declarations agree, it has no variables without a template and its key is not blank; and then exactly the addressed, named, or working and not opted-out channels are feasible |
| `IntakeAcceptService.AcceptedIntakesAreReady` | backend/src/tiber/application/services/notification_intake.py:117-153 | Every accepted request is a valid intake from which the expansion can start, and whatever the model answers it gets a valid plan within its constraints |
| `AcceptedExpansion.PromisesAreKept` | backend/src/tiber/application/services/notification_intake.py:117-153 | From acceptance to expansion, in every interleaving of workers, every child is as requested: for the recipient the request was resolved to, on a channel that had an address and could carry it then, CRITICAL if and only if the request said so, and of the category, topic, template, content and send time it gave |
| `AcceptedExpansion.AcceptedRequestsComplete` | backend/src/tiber/application/services/intake_processor.py:113-137 | An accepted request gets through: whatever the model and the policy say, its first undisturbed run with the template unchanged completes it with a child on every channel of its plan, unless the template does not render on one of them (a value that is missing, a name with a leading digit, a blank body), and then it always fails |
| `IntakeAcceptService.AcceptIsAProtocolRun` | backend/src/tiber/application/services/notification_intake.py:98-189 | That effect and answer are those of a run of the protocol |
| `TransactionTrees.WellNestedRunsMeanTheirTrees` | backend/src/tiber/infrastructure/repositories/unit_of_work.py:56-124 | Every well-nested run of the stack machine is a sequence of transaction trees and leaves the durable state they mean: a failed inner block undoes only itself, a failed outermost block or commit everything, and statements outside a block are dropped |
| `TransactionTrees.WellNestedRunsAreTrees` | backend/src/tiber/infrastructure/repositories/unit_of_work.py:56-124 | Every well-nested sequence of events, failing commits included, is the run of transaction trees with stray statements in between |
| `TransactionTrees.SessionsMeanTheirTrees` | backend/src/tiber/infrastructure/repositories/unit_of_work.py:56-124 | The events of any transaction trees leave the durable state the trees mean |
| `TransactionTrees.BodiesMeanTheirTree` | backend/src/tiber/infrastructure/repositories/unit_of_work.py:85-111 | Inside a block a body changes only what is in effect, as its tree says, and leaves depth, savepoints and durable state alone |
| `UnitOfWork.EveryEventKeepsTheStack` | backend/src/tiber/infrastructure/repositories/unit_of_work.py:56-124 | For any event in any order: one savepoint per open nested block, only leaving the outermost block without failure makes anything durable, and exactly three situations raise |
| `UnitOfWork.EveryRunKeepsTheStack` | backend/src/tiber/infrastructure/repositories/unit_of_work.py:51-124 | len(savepoints) = max(0, depth - 1) after any run of events |
| `UnitOfWork.SqlUnitOfWork.EnterBlock` | backend/src/tiber/infrastructure/repositories/unit_of_work.py:56-83 | Entering is the Enter event of the machine, refusing staged changes and dropping a stray transaction |
| `UnitOfWork.SqlUnitOfWork.ExitBlock` | backend/src/tiber/infrastructure/repositories/unit_of_work.py:85-124 | Leaving is the Exit event of the machine, including a commit that fails |
| `UnitOfWork.SqlUnitOfWork.PrepareOutermost` | backend/src/tiber/infrastructure/repositories/unit_of_work.py:66-83 | Refuses exactly an open transaction with unflushed changes, and otherwise leaves no transaction open |
| `ApiKeyCache.CachingIsInvisible` | backend/src/tiber/application/services/api_key_authenticator.py:63-77 | With atomic use cases, over any run with evictions, misses and dropped writes, every answer is the one the database alone gives at that time |
| `ApiKeyCache.OpsStayFaithful` | backend/src/tiber/application/services/api_key_authenticator.py:63-103 | Each use case keeps every cached fact a fact of the database, and answers and writes as without a cache |
| `ApiKeyCache.AcceptedExactlyWhen` | backend/src/tiber/application/services/api_key_authenticator.py:63-103 | While cached facts are true, a key is accepted if and only if it is well-formed, stored, not revoked and not expired, and then the answer names that key; of a key that is revoked and expired it says revoked |
| `ApiKeyCache.ShapeOfKeys` | backend/src/tiber/application/services/api_key_authenticator.py:31-38 | Well-formed means the prefix and 32 to 128 URL-safe characters |
| `ApiKeyCache.OverlookedExactlyWhen` | backend/src/tiber/application/services/api_key_management.py:103-121 | A revocation whose invalidation fails is overlooked if and only if a readable entry is cached and the key was not revoked before; it is accepted if and only if that entry is usable |
| `ApiKeyCache.UsableEntriesAreShortLived` | backend/src/tiber/infrastructure/cache/api_keys.py:64-92 | A usable entry lives at most five minutes, and is gone by the key's expiry if and only if at least a second remains |
| `ApiKeyCache.UnusableEntriesLast` | backend/src/tiber/infrastructure/cache/api_keys.py:64-92 | An unknown hash is remembered for a minute, a revoked or expired key for thirty days |
| `ApiKeyCache.ApiKeyService.Authenticate` | backend/src/tiber/application/services/api_key_authenticator.py:63-103 | The use case is the specified one, and with a faithful cache answers like the database |
| `ApiKeyCache.ApiKeyService.RevokeKey` | backend/src/tiber/application/services/api_key_management.py:103-121 | The key is revoked in the database, keeping an earlier revocation; a failing invalidation is reported |
| `ApiKeyProtocol.RevocationTakesEffectInTime` | backend/src/tiber/application/services/api_key_authenticator.py:63-77 | In every interleaving of the steps of authentications and revocations, with revocations that race each other and invalidations that race or fail: no request that starts five minutes and the longest duration of a request after a revocation was first committed is accepted |
| `ApiKeyProtocol.RevocationTimeIsABound` | backend/src/tiber/application/services/api_key_management.py:103-121 | If revocations are committed within e of the time they write, the same holds counting from the stored revocation time, with e added, even when racing revocations have overwritten it |
| `ApiKeyAnswers.AnswersAreTrue` | backend/src/tiber/application/services/api_key_authenticator.py:63-103 | In every interleaving, however stale the cache: an accepted request names the stored key with that hash and started before it expired, and nobody is told that a key is revoked or expired when it is not |
| `ApiKeyWitnesses.StampsAreTooEarly` | backend/src/tiber/application/services/api_key_management.py:111-117 | That addition is needed: for any delay between the mark of a revocation and its commit there is a run, with authentications that take no time, in which a request that starts this delay and almost five minutes after the stored time is accepted |
| `ApiKeyWitnesses.RevocationCanBeOvertaken` | backend/src/tiber/application/services/api_key_authenticator.py:72-77 | Atomic use cases are needed for the cache to be invisible: a run in which a key is accepted after its revocation has been completed |
| `ResetTokens.OnlyTheLastTokenIsConsumable` | backend/src/tiber/application/auth_tokens.py:260-279 | In every interleaving, with expiring keys and crashing issuers, at most one token per account is consumable: the one whose issue last wrote the account's current token, and it was not consumed before |
| `ResetTokens.ConsumedAtMostOnce` | backend/src/tiber/application/auth_tokens.py:76-88 | Each token is consumed at most once, and only for the account it was issued for |
| `ResetTokens.SupersededTokensAreDead` | backend/src/tiber/application/auth_tokens.py:266-279 | Once a later issue has written the current token, no later state accepts the earlier one |
| `ResetTokens.UndisturbedIssue` | backend/src/tiber/application/auth_tokens.py:260-279 | In every reachable state the four commands of an issuer, left alone, have the effect of an issue with an unused token |
| `ResetTokens.IssueThenConsume` | backend/src/tiber/application/auth_tokens.py:260-303 | After an issue its token is the only consumable one of the account, works exactly once, and other accounts are as before |
| `ResetTokens.ConsumingTakesOneToken` | backend/src/tiber/application/auth_tokens.py:76-88 | Consuming works if and only if the token is consumable for some account, and touches no other token |
| `ResetTokens.OneTimeTokens.IssueToken` | backend/src/tiber/application/auth_tokens.py:260-279 | The four commands over the two kinds of keys have the effect of an issue |
| `ResetTokens.OneTimeTokens.ConsumeToken` | backend/src/tiber/application/auth_tokens.py:282-303 | The script, branch by branch |

## Left out

- IntakeAcceptService.NotificationIntakeService.Accept: others commit between the look-up and the insertion, any number of them; those that commit while the inserted row waits for its own commit hold other keys and are left to the protocol. The recipient a request is resolved to is an input.
- IntakeAcceptService.NotificationIntakeService.InsertOrReplay: the same.
- IntakeAccept.SameDocument: speaks of the document before hashing; that SHA-256 does not collide is not part of this model, and the canonical form of an address is a parameter.
- OutboxRuns.EveryMessageSettles: a crash between publishing and marking rolls back and leaves no trace, so a message may be published more than once; that is not counted.
- TransactionTrees.WellNestedRunsMeanTheirTrees: one session alone; isolation between sessions, a failing release of a savepoint and cancellation are not modelled.
- ApiKeyCache.ApiKeyService.Authenticate: a key is identified by its hash; owners, projects and pagination are left out.
- Cancellation in the delivery protocol may hit any PENDING row; the service's earlier read, which only makes it cancel less often, is modelled in the cancellation service.
- Daylight saving: comparisons of wall-clock times across a fold are not modelled; zones are fixed offsets.
- Liveness of intakes: a message redelivered while the lease runs is dropped silently, so no claim is made that every intake ends by itself.
- Row locks between concurrent relays: that another relay skips a locked row is modelled only as its freedom to take any due row; within one pass nothing else commits (passes of one iteration let relays alternate).
- The worker task that marks permanently failing notifications: a separate unconditional writer.
- The SQL adapter for delivery attempts: attempts are an append-only log.
- Content checks on URLs and lengths, the database's checks on children's titles, and the texts of errors, log lines and policy reasons.
- Which error a template that is gone, lacks a variant or does not render raises at fan-out: the intake fails in each case. At delivery, what the template resolver returns is an input.
- The order in which missing variable names are listed: they are sets here.
- The group key, the client's idempotency key and the template variables that a child carries along.
- Creating recipients on address-based requests, and reassigning recipients.
- Refresh tokens, e-mail verification codes, sessions, password hashing, webhooks, engagement events, projects, topics, accounts, HTTP routing, settings and telemetry.
