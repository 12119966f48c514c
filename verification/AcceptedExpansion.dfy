/** From the acceptance of a request to the expansion of its intake. */
module AcceptedExpansion {
  import opened Domain
  import opened IntakeProtocol
  import A = IntakeAcceptService
  import IntakeAccept
  import IntakeSafety
  import opened IntakeProcessor
  import opened IntakeRuns
  import opened NotificationIntake
  import DecisionConstraints
  import Outbox
  import PlanAssembly
  import Placeholders
  import TemplateRendering
  import N = NotificationEntity

  /** The execution expands the intake that the request was accepted as. */
  ghost predicate Expands(cmd: IntakeAccept.Command, s: A.Surroundings, id: nat, states: seq<World>, steps: seq<Step>) {
    && Execution(states, steps)
    && A.Judge(cmd, s).Ok?
    && states[0].row == A.NewIntake(cmd, s, id)
  }

  /** The notification is what the request asked for: for the recipient it was resolved to, on
      a channel that had an address and could carry it then, CRITICAL exactly if the client
      said so; and its category, topic, template, content and send time are the client's, as
      far as it gave them (but a postponed notification waits for its resume time). */
  predicate AsRequested(n: N.Notification, cmd: IntakeAccept.Command, s: A.Surroundings, id: nat)
    requires A.Judge(cmd, s).Ok?
  {
    && n.recipientId == s.recipient.value.id && n.projectId == cmd.projectId && n.transactionId == id
    && A.FactsAt(cmd, s).Deliverable(n.channel)
    && (n.category.Critical? <==> cmd.category == Some(Critical))
    && (cmd.category.Some? ==> n.category == cmd.category.value)
    && (cmd.topicSlug.Some? ==> n.topicId == Some(s.topics[cmd.topicSlug.value].id))
    && (match cmd.templateSlug
        case Some(slug) => n.templateId == Some(s.templates[slug].id)
        case None => n.templateId == None && cmd.content == Some(n.content))
    && (cmd.sendAt.Some? && !n.status.Postponed? ==> n.sendAt == Some(cmd.sendAt.value.at))
  }

  /** In every interleaving of workers on an accepted request, every child is as requested. */
  lemma PromisesAreKept(cmd: IntakeAccept.Command, s: A.Surroundings, id: nat, states: seq<World>, steps: seq<Step>,
      i: nat, j: nat)
    ensures Expands(cmd, s, id, states, steps) && i < |states| && j < |states[i].children| ==>
              AsRequested(states[i].children[j], cmd, s, id)
  {
    if Expands(cmd, s, id, states, steps) && i < |states| && j < |states[i].children| {
      PlanAssembly.AcceptedIsCompatible(A.FactsAt(cmd, s), A.Find(cmd.topicSlug, s.topics), cmd.sendAt);
      IntakeSafety.AcceptTimeIsKept(states, steps, i);
      assert states[i].children[j] in states[i].children;
    }
  }

  // ---- An accepted request that nobody disturbs ----

  /** What can still go wrong with a template that was accepted: a supplied variable without a
      value, a name with a leading digit, which accept time does not ask for, and a body that
      comes out blank. */
  predicate Renders(content: Content, variables: Option<TemplateRendering.Variables>) {
    var env := TemplateRendering.EnvOf(variables);
    && (forall name :: name in TemplateRendering.Extracted(content) ==>
          if name in env then env[name].Some? else !Placeholders.LeadingDigit(name))
    && exists c :: c in TemplateRendering.Substitute(content.body, env) && !Placeholders.IsSpace(c)
  }

  lemma AcceptedVariantsRender(content: Content, variables: Option<TemplateRendering.Variables>)
    requires TemplateRendering.ContentVariables(content) <= TemplateRendering.EnvOf(variables).Keys
    ensures TemplateRendering.Render(content, variables).Ok? <==> Renders(content, variables)
  {
    TemplateRendering.RenderFailsExactlyWhen(content, variables);
    TemplateRendering.BlankIsSpaces(
        TemplateRendering.Substitute(content.body, TemplateRendering.EnvOf(variables)));
  }

  /** What was deliverable at accept time has a content at fan-out, provided that a template
      is still the same and renders. */
  lemma DeliverableChannelsHaveContent(cmd: IntakeAccept.Command, s: A.Surroundings, c: Channel)
    requires A.Judge(cmd, s).Ok? && A.FactsAt(cmd, s).Deliverable(c)
    ensures var payload, template := A.Judge(cmd, s).value.1, A.Find(cmd.templateSlug, s.templates);
            match template
            case None => forall t :: ContentFor(payload, c, t).Some?
            case Some(t) =>
              && c in t.variants
              && (ContentFor(payload, c, Some(t)).Some? <==> Renders(t.variants[c], cmd.variables))
  {
    var f := A.FactsAt(cmd, s);
    PlanAssembly.AcceptedIsCompatible(f, A.Find(cmd.topicSlug, s.topics), cmd.sendAt);
    if f.template.Some? {
      DecisionConstraints.FeasibleVariant(f, c);
      AcceptedVariantsRender(f.template.value.variants[c], cmd.variables);
    }
  }

  /** The template is, for every channel, what it was when the request was accepted. */
  predicate TemplateStands(cmd: IntakeAccept.Command, s: A.Surroundings, inp: Inputs)
    requires A.Known(cmd.templateSlug, s.templates)
  {
    cmd.templateSlug.Some? ==> forall c :: c in inp.templates && inp.templates[c] == s.templates[cmd.templateSlug.value]
  }

  /** An accepted request gets through: whatever the model answers and the policy says, its
      first run, if nobody interferes, the recipient is still there and the template stands,
      gives it a plan and completes it, with a child on every channel of the plan.  The one
      exception are templates that do not render, and with one on some channel of the plan it
      always fails. */
  lemma AcceptedRequestsComplete(cmd: IntakeAccept.Command, s: A.Surroundings, id: nat, lease: int, maxAttempts: nat,
      dispatches: seq<Outbox.Entry>, inp: Inputs)
    requires A.Judge(cmd, s).Ok? && maxAttempts >= 1
    requires inp.recipientKnown && !inp.lockedAtFailure && TemplateStands(cmd, s, inp)
    ensures var (end, violation) :=
              Effect(lease, maxAttempts, Snapshot(A.NewIntake(cmd, s, id), [], dispatches), NOBODY, inp);
            && !violation && end.row.plan.Some?
            && var channels := end.row.plan.value.channels;
               var renders := cmd.templateSlug.Some? ==>
                     forall c :: c in channels ==>
                           && c in s.templates[cmd.templateSlug.value].variants
                           && Renders(s.templates[cmd.templateSlug.value].variants[c], cmd.variables);
               if renders then end.row.status.Completed? && Channels(end.children) == channels
               else end.row.status.Failed? && end.children == []
  {
    var i := A.NewIntake(cmd, s, id);
    PlanAssembly.AcceptedIsCompatible(A.FactsAt(cmd, s), A.Find(cmd.topicSlug, s.topics), cmd.sendAt);
    PlanAssembly.DecidedPlansKeep(i.payload, i.constraints, inp.answer, inp.topics, inp.planAt);
    UndisturbedRunsEnd(lease, maxAttempts, Snapshot(i, [], dispatches), inp);
    var claimed := Claim(i, inp.claimAt, lease).value;
    var channels := Decided(claimed, inp).value.plan.value.channels;
    IntakeSafety.NothingExistsYet(channels);
    assert Elements(Channels([])) == {};
    forall c | c in channels
      ensures inp.ContentOf(claimed.payload, c).Some? <==>
                cmd.templateSlug.Some? ==>
                  && c in s.templates[cmd.templateSlug.value].variants
                  && Renders(s.templates[cmd.templateSlug.value].variants[c], cmd.variables)
    {
      DeliverableChannelsHaveContent(cmd, s, c);
    }
  }
}
