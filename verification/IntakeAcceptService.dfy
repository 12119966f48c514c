/** The accept use case over the stored tables: the checks a request has to pass, and the
    insertion under its key.  `Accept` is proved to be a run of the protocol for concurrent
    acceptances, and what it inserts to be ready for the intake worker. */
module IntakeAcceptService {
  import opened Domain
  import opened IntakeAccept
  import opened PlanAssembly
  import DecisionConstraints
  import TemplateRendering
  import NotificationIntake
  import IntakeProtocol
  import Outbox

  // ---- The checks ----

  /** The recipient a request is resolved to. */
  datatype Resolved = Resolved(id: nat, channels: set<Channel>, optedOut: set<Channel>)

  /** The project's topics and templates by slug, and the recipient if it can be resolved. */
  datatype Surroundings = Surroundings(
    topics: map<string, Topic>,
    templates: map<string, DecisionConstraints.Template>,
    recipient: Option<Resolved>)

  datatype Refusal =
    | UnknownTopic
    | UnknownTemplate
    | UnknownRecipient
    | Undecidable(cause: DecisionConstraints.AcceptError)
    | BlankKey

  predicate Known<T>(slug: Option<string>, known: map<string, T>) {
    slug.Some? ==> slug.value in known
  }

  function Find<T>(slug: Option<string>, known: map<string, T>): Option<T>
    requires Known(slug, known)
  {
    if slug.Some? then Some(known[slug.value]) else None
  }

  /** A request without a recipient id brings the addresses itself. */
  function FactsOf(cmd: Command, r: Resolved, template: Option<DecisionConstraints.Template>)
    : DecisionConstraints.Facts
  {
    var adhoc := cmd.recipientId.None?;
    DecisionConstraints.Facts(if adhoc then cmd.addresses.Keys else r.channels, adhoc, cmd.channels, r.optedOut,
                              cmd.category, template, cmd.variables, cmd.content)
  }

  /** What accept time knows of a request whose recipient and template are known. */
  function FactsAt(cmd: Command, s: Surroundings): DecisionConstraints.Facts
    requires s.recipient.Some? && Known(cmd.templateSlug, s.templates)
  {
    FactsOf(cmd, s.recipient.value, Find(cmd.templateSlug, s.templates))
  }

  /** What an accepted request is stored with, or why it is refused. */
  function Judge(cmd: Command, s: Surroundings): Result<(nat, Payload, DecisionConstraints.Constraints), Refusal> {
    if !Known(cmd.topicSlug, s.topics) then Err(UnknownTopic)
    else if !Known(cmd.templateSlug, s.templates) then Err(UnknownTemplate)
    else if s.recipient.None? then Err(UnknownRecipient)
    else
      match PlanAssembly.Accept(FactsAt(cmd, s), Find(cmd.topicSlug, s.topics), cmd.sendAt)
      case Err(e) => Err(Undecidable(e))
      case Ok((payload, constraints)) =>
        if cmd.key.Some? && TemplateRendering.Blank(cmd.key.value) then Err(BlankKey)
        else Ok((s.recipient.value.id, payload, constraints))
  }

  /** The intake as it is inserted. */
  function NewIntake(cmd: Command, s: Surroundings, id: nat): NotificationIntake.Intake
    requires Judge(cmd, s).Ok?
  {
    var (recipientId, payload, constraints) := Judge(cmd, s).value;
    NotificationIntake.Intake(id, cmd.projectId, id, recipientId, payload, constraints,
                              NotificationIntake.Received, None, 0, None, None, None)
  }

  // ---- When a request is accepted, in its own terms ----

  /** The channels the request can be sent on at all. */
  function Reachable(cmd: Command, r: Resolved): set<Channel> {
    if cmd.recipientId.Some? then r.channels else cmd.addresses.Keys
  }

  /** The channel is reachable, and what the request brings can be carried on it. */
  predicate CanGoOn(cmd: Command, s: Surroundings, c: Channel)
    requires s.recipient.Some? && Known(cmd.templateSlug, s.templates)
  {
    && c in Reachable(cmd, s.recipient.value)
    && match cmd.templateSlug
       case Some(slug) =>
         && c in s.templates[slug].variants
         && forall name :: name in TemplateRendering.ContentVariables(s.templates[slug].variants[c]) ==>
                             cmd.variables.Some? && name in cmd.variables.value
       case None =>
         && cmd.content.Some?
         && (c.Email? ==> DecisionConstraints.HasText(cmd.content.value.title))
         && (c.Sms? ==> cmd.content.value.title.None? || cmd.content.value.title.value == "")
  }

  predicate Names(cmd: Command) {
    cmd.channels.Some? && cmd.channels.value != []
  }

  /** A request with addresses must do without channels of its own and be good on each address;
      one that names channels must be good on all of them; and any other on some channel. */
  predicate ChannelsWork(cmd: Command, s: Surroundings)
    requires s.recipient.Some? && Known(cmd.templateSlug, s.templates)
  {
    if cmd.recipientId.None? then
      !Names(cmd) && cmd.addresses != map[] && forall c :: c in cmd.addresses ==> CanGoOn(cmd, s, c)
    else if Names(cmd) then forall c :: c in cmd.channels.value ==> CanGoOn(cmd, s, c)
    else exists c :: CanGoOn(cmd, s, c)
  }

  /** The category is the topic's if both are given, and what is declared CRITICAL has no send
      time; any other send time has a time zone. */
  predicate DeclarationsAgree(cmd: Command, topic: Option<Topic>) {
    && (cmd.category.Some? && topic.Some? ==> cmd.category.value == topic.value.category)
    && (cmd.sendAt.Some? ==>
          && cmd.sendAt.value.aware && cmd.category != Some(Critical)
          && (cmd.category.None? && topic.Some? ==> topic.value.category != Critical))
  }

  lemma FactsSpeakOfTheRequest(cmd: Command, s: Surroundings, c: Channel)
    requires s.recipient.Some? && Known(cmd.templateSlug, s.templates)
    ensures FactsAt(cmd, s).Deliverable(c) <==> CanGoOn(cmd, s, c)
  {
    DecisionConstraints.DeliverableExactlyWhen(FactsAt(cmd, s), c);
  }

  lemma ConstraintsWhenChannelsWork(cmd: Command, s: Surroundings)
    requires s.recipient.Some? && Known(cmd.templateSlug, s.templates)
    ensures DecisionConstraints.ConstraintsFor(FactsAt(cmd, s)).Ok? <==> ChannelsWork(cmd, s)
    ensures ChannelsWork(cmd, s) ==>
              forall c :: c in DecisionConstraints.ConstraintsFor(FactsAt(cmd, s)).value.feasible <==>
                WouldGoOn(cmd, s, c)
  {
    var f := FactsAt(cmd, s);
    forall c ensures f.Deliverable(c) <==> CanGoOn(cmd, s, c) {
      FactsSpeakOfTheRequest(cmd, s, c);
    }
    if f.adhoc {
      DecisionConstraints.AddressesAllOrNothing(f);
    } else if f.NamesChannels() {
      DecisionConstraints.NamedChannelsAllOrNothing(f);
    } else {
      DecisionConstraints.ModelChoosesAmongReachable(f);
    }
  }

  /** The channels left open: those addressed, those named, or else those that work, without
      the ones the recipient has opted out of unless it has opted out of all that work. */
  predicate WouldGoOn(cmd: Command, s: Surroundings, c: Channel)
    requires s.recipient.Some? && Known(cmd.templateSlug, s.templates)
  {
    if cmd.recipientId.None? then c in cmd.addresses
    else if Names(cmd) then c in cmd.channels.value
    else
      && CanGoOn(cmd, s, c)
      && (c in s.recipient.value.optedOut ==> forall d :: CanGoOn(cmd, s, d) ==> d in s.recipient.value.optedOut)
  }

  /** A request is accepted if and only if its topic, template and recipient are known, its
      channels work, what it declares agrees, it has no variables without a template, and its
      key, if any, is not blank; and then exactly the channels left open are feasible. */
  lemma AcceptedExactlyWhen(cmd: Command, s: Surroundings)
    ensures Judge(cmd, s).Ok? <==>
              && Known(cmd.topicSlug, s.topics) && Known(cmd.templateSlug, s.templates) && s.recipient.Some?
              && ChannelsWork(cmd, s) && DeclarationsAgree(cmd, Find(cmd.topicSlug, s.topics))
              && (cmd.templateSlug.None? ==> cmd.variables.None?)
              && (cmd.key.Some? ==> DecisionConstraints.HasText(cmd.key))
    ensures Judge(cmd, s).Ok? ==>
              && Judge(cmd, s).value.0 == s.recipient.value.id
              && forall c :: c in Judge(cmd, s).value.2.feasible <==> WouldGoOn(cmd, s, c)
  {
    if Known(cmd.topicSlug, s.topics) && Known(cmd.templateSlug, s.templates) && s.recipient.Some? {
      PlanAssembly.AcceptedExactlyWhen(FactsAt(cmd, s), Find(cmd.topicSlug, s.topics), cmd.sendAt);
      ConstraintsWhenChannelsWork(cmd, s);
    }
    if cmd.key.Some? {
      TemplateRendering.BlankIsSpaces(cmd.key.value);
    }
  }

  /** Whatever is accepted is a valid intake from which the expansion can start, and every
      answer of the model gives it a valid plan for channels that can deliver. */
  lemma AcceptedIntakesAreReady(cmd: Command, s: Surroundings, id: nat, lease: int, maxAttempts: nat, nextId: nat,
                                answer: Option<Suggestion>, now: int)
    requires Judge(cmd, s).Ok?
    ensures var i := NewIntake(cmd, s, id);
            && i.Valid() && i.payload.Valid() && Compatible(i.payload, i.constraints)
            && IntakeProtocol.Initial(IntakeProtocol.World(lease, maxAttempts, now, i, [], [], nextId, 0, map[]))
            && Decide(i.payload, i.constraints, answer, s.topics, now).Ok?
            && Keeps(Decide(i.payload, i.constraints, answer, s.topics, now).value, i.payload, i.constraints, now)
  {
    var facts := FactsAt(cmd, s);
    var topic := Find(cmd.topicSlug, s.topics);
    AcceptedIsCompatible(facts, topic, cmd.sendAt);
    EveryAnswerGivesAValidPlan(facts, topic, cmd.sendAt, answer, s.topics, now);
  }

  // ---- The tables ----

  datatype Tables = Tables(rows: seq<Row>, outbox: seq<Outbox.Entry>, nextId: nat)

  class IntakeRepository {
    var rows: seq<Row>
    var outbox: seq<Outbox.Entry>
    var nextId: nat

    constructor ()
      ensures All() == Tables([], [], 0)
    {
      rows, outbox, nextId := [], [], 0;
    }

    function All(): Tables
      reads this
    {
      Tables(rows, outbox, nextId)
    }

    /** Insert, unless the key is taken. */
    method Add(request: Request) returns (r: Option<Row>)
      modifies this`rows, this`nextId
      ensures r.Some? <==> forall row :: row in old(rows) ==> !Collide(request, row.request)
      ensures r.None? ==> rows == old(rows) && nextId == old(nextId)
      ensures r.Some? ==> r.value == Row(old(nextId), request)
      ensures r.Some? ==> rows == old(rows) + [r.value] && nextId == old(nextId) + 1
    {
      FindsTheRow(rows, request);
      if IntakeAccept.Find(rows, request).Some? {
        return None;
      }
      r := Some(Row(nextId, request));
      rows, nextId := rows + [r.value], nextId + 1;
    }

    method EnqueueIntake(row: Row)
      modifies this`outbox
      ensures outbox == old(outbox) + [Announce(row)]
    {
      outbox := outbox + [Outbox.IntakeEntry(row.id, row.request.document.category == Some(Critical))];
    }
  }

  /** An acceptance that commits in one piece. */
  function Won(t: Tables, request: Request): Tables {
    var row := Row(t.nextId, request);
    Tables(t.rows + [row], t.outbox + [Announce(row)], t.nextId + 1)
  }

  /** Any number of them, one after the other. */
  function AllWon(t: Tables, winners: seq<Request>): Tables
    decreases |winners|
  {
    if winners == [] then t else Won(AllWon(t, winners[..|winners| - 1]), winners[|winners| - 1])
  }

  /** What one acceptance does to the tables, and its answer; none if the commit fails.
      `refused` says that the request breaks a rule, and `winners` commit between this
      request's look-up and its insertion. */
  function Effect(t: Tables, request: Request, refused: bool, winners: seq<Request>, commitFails: bool)
    : (Tables, Option<Answer>)
  {
    if Replay(t.rows, request).Some? then (t, Replay(t.rows, request)) else
    var found := AllWon(t, winners);
    if refused then (found, Some(Refused))
    else if IntakeAccept.Find(found.rows, request).Some? then (found, Replay(found.rows, request))
    else if commitFails then (found.(nextId := found.nextId + 1), None)
    else (Won(found, request), Some(Accepted(found.nextId, false)))
  }

  class NotificationIntakeService {
    const repository: IntakeRepository

    constructor (repository: IntakeRepository)
      ensures this.repository == repository
    {
      this.repository := repository;
    }

    /** Replay, refuse, or insert with the message for the worker; a failing commit undoes
        both insertions. */
    method InsertOrReplay(request: Request, refused: bool, winners: seq<Request>, commitFails: bool)
      returns (answer: Option<Answer>)
      modifies repository
      ensures (repository.All(), answer) == Effect(old(repository.All()), request, refused, winners, commitFails)
    {
      answer := Replay(repository.rows, request);
      if answer.Some? {
        return;
      }
      ghost var start := repository.All();
      for k := 0 to |winners|
        invariant repository.All() == AllWon(start, winners[..k])
      {
        assert winners[..k + 1][..k] == winners[..k];
        var other := Row(repository.nextId, winners[k]);
        repository.rows, repository.nextId := repository.rows + [other], repository.nextId + 1;
        repository.EnqueueIntake(other);
      }
      assert winners[..|winners|] == winners;
      if refused {
        return Some(Refused);
      }
      var rows, outbox := repository.rows, repository.outbox;
      FindsTheRow(rows, request);
      var row := repository.Add(request);
      if row.None? {
        answer := Replay(repository.rows, request);
        return;
      }
      repository.EnqueueIntake(row.value);
      if commitFails {
        repository.rows, repository.outbox := rows, outbox;
        return None;
      }
      answer := Some(Accepted(row.value.id, false));
    }

    /** Accept a request; `normal` gives the canonical form of an address.  A new intake is
        returned exactly if this call has inserted it. */
    method Accept(cmd: Command, normal: (Channel, string) -> string, s: Surroundings, winners: seq<Request>,
        commitFails: bool)
      returns (answer: Option<Answer>, intake: Option<NotificationIntake.Intake>)
      modifies repository
      ensures var request := Request(cmd.projectId, cmd.key, DocumentOf(cmd, normal));
              (repository.All(), answer)
              == Effect(old(repository.All()), request, Judge(cmd, s).Err?, winners, commitFails)
      ensures intake.Some? <==> answer.Some? && answer.value.Accepted? && !answer.value.replayed
      ensures intake.Some? ==> Judge(cmd, s).Ok? && intake.value == NewIntake(cmd, s, answer.value.transactionId)
    {
      var request := Request(cmd.projectId, cmd.key, DocumentOf(cmd, normal));
      var refused := Judge(cmd, s).Err?;
      FreshUnlessRefused(repository.All(), request, refused, winners, commitFails);
      answer := InsertOrReplay(request, refused, winners, commitFails);
      if answer.Some? && answer.value.Accepted? && !answer.value.replayed {
        intake := Some(NewIntake(cmd, s, answer.value.transactionId));
      } else {
        intake := None;
      }
    }
  }

  /** What is inserted was not refused. */
  lemma FreshUnlessRefused(t: Tables, request: Request, refused: bool, winners: seq<Request>, commitFails: bool)
    ensures var answer := Effect(t, request, refused, winners, commitFails).1;
            answer.Some? && answer.value.Accepted? && !answer.value.replayed ==> !refused
  {
  }

  // ---- An acceptance is a run of the protocol ----

  function Run(w: World, steps: seq<Step>): Option<World>
    decreases |steps|
  {
    if steps == [] then Some(w) else
    match Next(w, steps[0])
    case Some(v) => Run(v, steps[1..])
    case None => None
  }

  /** The client's steps after its look-up, given what is committed by then. */
  function Rest(rows: seq<Row>, request: Request, refused: bool, commitFails: bool): seq<Step> {
    if refused then [Refuse(0)]
    else if IntakeAccept.Find(rows, request).Some? then [InsertRow(0), ReplayWinner(0)]
    else [InsertRow(0), Enqueue(0), if commitFails then Abort(0) else CommitBoth(0, true)]
  }

  predicate Shows(w: World, t: Tables) {
    w.rows == t.rows && w.outbox == t.outbox && w.nextId == t.nextId
  }

  /** The response log after an answer, if there is one. */
  function Logged(responses: seq<Response>, request: Request, answer: Option<Answer>): seq<Response> {
    if answer.None? then responses else responses + [Response(request, answer.value)]
  }

  lemma RunCons(w: World, s: Step, rest: seq<Step>)
    requires Next(w, s).Some?
    ensures Run(w, [s] + rest) == Run(Next(w, s).value, rest)
  {
  }

  /** The run after the look-up, on a connection where nobody else is in the middle. */
  predicate Looking(w: World, found: Tables, request: Request) {
    Shows(w, found) && PhaseOf(w, 0) == Looked(request) && w.phases.Keys == {0}
  }

  lemma LosingRuns(w: World, found: Tables, request: Request)
    requires Looking(w, found, request) && IntakeAccept.Find(found.rows, request).Some?
    ensures var last := Run(w, [InsertRow(0), ReplayWinner(0)]);
            && last.Some? && Shows(last.value, found) && Replay(found.rows, request).Some?
            && last.value.responses == Logged(w.responses, request, Replay(found.rows, request))
  {
    FindsTheRow(found.rows, request);
    var w2 := Enter(w, 0, Lost(request));
    assert Next(w, InsertRow(0)) == Some(w2);
    RunCons(w, InsertRow(0), [ReplayWinner(0)]);
    RunCons(w2, ReplayWinner(0), []);
  }

  lemma WinningRuns(w: World, found: Tables, request: Request, commitFails: bool)
    requires Looking(w, found, request) && IntakeAccept.Find(found.rows, request).None?
    ensures var last := Run(w, [InsertRow(0), Enqueue(0), if commitFails then Abort(0) else CommitBoth(0, true)]);
            && last.Some?
            && Shows(last.value, if commitFails then found.(nextId := found.nextId + 1) else Won(found, request))
            && last.value.responses
               == Logged(w.responses, request, if commitFails then None else Some(Accepted(found.nextId, false)))
  {
    var row := Row(w.nextId, request);
    var w2 := Enter(w, 0, Inserted(row)).(nextId := w.nextId + 1);
    assert Next(w, InsertRow(0)) == Some(w2);
    var w3 := Enter(w2, 0, Enqueued(row));
    var end := if commitFails then Abort(0) else CommitBoth(0, true);
    RunCons(w, InsertRow(0), [Enqueue(0), end]);
    RunCons(w2, Enqueue(0), [end]);
    RunCons(w3, end, []);
  }

  /** Either the look-up already answers, or, with whatever others have committed after
      it, the client's remaining steps lead to the effect and the answer of `Accept`. */
  lemma AcceptIsAProtocolRun(w: World, t: Tables, request: Request, refused: bool, winners: seq<Request>,
      commitFails: bool)
    requires Shows(w, t) && w.phases == map[]
    ensures var (end, answer) := Effect(t, request, refused, winners, commitFails);
            var looked := Next(w, LookUp(0, request));
            && looked.Some?
            && if Replay(t.rows, request).Some? then
                 Shows(looked.value, end) && looked.value.responses == Logged(w.responses, request, answer)
               else
                 var found := AllWon(t, winners);
                 var disturbed := looked.value.(rows := found.rows, outbox := found.outbox, nextId := found.nextId);
                 var last := Run(disturbed, Rest(found.rows, request, refused, commitFails));
                 && last.Some? && Shows(last.value, end)
                 && last.value.responses == Logged(w.responses, request, answer)
  {
    if Replay(t.rows, request).None? {
      var found := AllWon(t, winners);
      var w1 := Next(w, LookUp(0, request)).value.(rows := found.rows, outbox := found.outbox, nextId := found.nextId);
      if refused {
        RunCons(w1, Refuse(0), []);
      } else if IntakeAccept.Find(found.rows, request).Some? {
        LosingRuns(w1, found, request);
      } else {
        WinningRuns(w1, found, request, commitFails);
      }
    }
  }
}
