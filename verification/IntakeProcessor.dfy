/** The intake worker over stored tables, transaction by transaction.  `Process` is proved
    to be a run of the intake protocol. */
module IntakeProcessor {
  import opened Domain
  import opened NotificationIntake
  import opened IntakeProtocol
  import opened PlanAssembly
  import N = NotificationEntity
  import Outbox
  import PolicyResolver
  import DecisionConstraints

  type Children = map<nat, seq<N.Notification>>

  function Of(all: Children, transactionId: nat): seq<N.Notification> {
    if transactionId in all then all[transactionId] else []
  }

  /** The notifications with more children for one transaction. */
  function Extended(all: Children, transactionId: nat, batch: seq<N.Notification>): Children {
    if batch == [] then all else all[transactionId := Of(all, transactionId) + batch]
  }

  /** The contents of the store. */
  datatype Tables = Tables(intakes: map<nat, Intake>, notifications: Children, dispatches: seq<Outbox.Entry>)

  /** The intakes, the notifications of each transaction in the order they were inserted,
      and the dispatch entries of the outbox. */
  class IntakeStore {
    var intakes: map<nat, Intake>
    var notifications: Children
    var dispatches: seq<Outbox.Entry>

    ghost predicate Valid()
      reads this
    {
      && (forall id :: id in intakes ==> intakes[id].id == id && intakes[id].Valid() && intakes[id].payload.Valid())
      && (forall t :: t in notifications ==> Distinct(Channels(notifications[t])))
    }

    constructor ()
      ensures Valid() && intakes == map[] && notifications == map[] && dispatches == []
    {
      intakes, notifications, dispatches := map[], map[], [];
    }

    function All(): Tables
      reads this
    {
      Tables(intakes, notifications, dispatches)
    }

    function ChildrenOf(transactionId: nat): seq<N.Notification>
      reads this
    {
      Of(notifications, transactionId)
    }

    /** A row locked by another worker is skipped as if it did not exist. */
    method GetForUpdate(id: nat, locked: bool) returns (r: Option<Intake>)
      ensures r == if id in intakes && !locked then Some(intakes[id]) else None
    {
      r := if locked || id !in intakes then None else Some(intakes[id]);
    }

    /** Overwrite the whole row. */
    method Save(i: Intake)
      requires Valid() && i.Valid() && i.payload.Valid()
      modifies this`intakes
      ensures Valid() && intakes == old(intakes)[i.id := i]
    {
      intakes := intakes[i.id := i];
    }

    /** Refused when the transaction already has a notification on the channel. */
    method Insert(n: N.Notification) returns (inserted: bool)
      requires Valid()
      modifies this`notifications
      ensures Valid()
      ensures inserted == Insertable(old(ChildrenOf(n.transactionId)), [n])
      ensures notifications == if inserted then Extended(old(notifications), n.transactionId, [n])
            else old(notifications)
    {
      var present := ChildrenOf(n.transactionId);
      assert Channels(present + [n]) == Channels(present) + [n.channel];
      inserted := true;
      for k := 0 to |present|
        invariant inserted && forall j :: 0 <= j < k ==> Channels(present)[j] != n.channel
      {
        if present[k].channel == n.channel {
          assert Channels(present + [n])[k] == Channels(present + [n])[|present|];
          return false;
        }
      }
      notifications := notifications[n.transactionId := present + [n]];
    }

    method EnqueueDispatch(n: N.Notification)
      modifies this`dispatches
      ensures dispatches == old(dispatches) + [Outbox.DispatchEntry(n)]
    {
      dispatches := dispatches + [Outbox.DispatchEntry(n)];
    }
  }

  // ---- What one run learns from outside ----

  datatype Trouble =
    | UnknownRecipient
    | NoPlan(cause: PlanError)
    | CannotRender(channel: Channel)
    | BadChild(refusal: N.EntityError)

  function Reason(t: Trouble): (r: string)
    ensures r != ""
  {
    match t
    case UnknownRecipient => "recipient not found"
    case NoPlan(_) => "no valid plan"
    case CannotRender(_) => "template cannot be rendered"
    case BadChild(_) => "invalid notification"
  }

  /** Clock readings, row locks met, the recipient lookup, the model's answer, the topics of
      the project, the template as each channel's child finds it (if it is still there), and
      the policy's verdicts (allowed unless listed).  New notifications get ids from `nextId` on. */
  datatype Inputs = Inputs(
    claimAt: int,
    planAt: int,
    buildAt: int,
    doneAt: int,
    locked: bool,
    lockedAtFailure: bool,
    recipientKnown: bool,
    answer: Option<Suggestion>,
    topics: map<string, Topic>,
    templates: map<Channel, DecisionConstraints.Template>,
    verdicts: map<Channel, PolicyResolver.Decision>,
    nextId: nat)
  {
    /** What the child on a channel says, or nothing if it cannot be said. */
    function ContentOf(p: Payload, c: Channel): Option<Content> {
      ContentFor(p, c, if c in templates then Some(templates[c]) else None)
    }

    function Verdict(c: Channel): PolicyResolver.Decision {
      if c in verdicts then verdicts[c] else PolicyResolver.Allow
    }
  }

  // ---- Specification of one run ----

  /** The part of the store a run of one intake reads and writes. */
  datatype Snapshot = Snapshot(row: Intake, children: seq<N.Notification>, dispatches: seq<Outbox.Entry>)

  /** What other workers on the same intake commit at some point of the run, however many
      they are: the row as they leave it, and the children they create. */
  datatype Rival = Rival(row: Intake, batch: seq<N.Notification>)

  /** The rivals that commit right after this worker's claim, after it has its plan, and
      after it has built its children. */
  datatype Rivals = Rivals(afterClaim: Option<Rival>, afterPlan: Option<Rival>, afterBuild: Option<Rival>)

  const NOBODY: Rivals := Rivals(None, None, None)

  /** A rival saves valid rows, within the constraint on its transaction's children. */
  predicate Admissible(id: nat, children: seq<N.Notification>, rival: Option<Rival>) {
    rival.Some? ==>
      && rival.value.row.Valid() && rival.value.row.payload.Valid() && rival.value.row.id == id
      && Insertable(children, rival.value.batch)
  }

  function Joined(children: seq<N.Notification>, rival: Option<Rival>): seq<N.Notification> {
    if rival.None? then children else children + rival.value.batch
  }

  predicate AllAdmissible(id: nat, children: seq<N.Notification>, rivals: Rivals) {
    && Admissible(id, children, rivals.afterClaim)
    && Admissible(id, Joined(children, rivals.afterClaim), rivals.afterPlan)
    && Admissible(id, Joined(Joined(children, rivals.afterClaim), rivals.afterPlan), rivals.afterBuild)
  }

  function Commit(s: Snapshot, rival: Option<Rival>): Snapshot {
    if rival.None? then s else
    Snapshot(rival.value.row, Joined(s.children, rival), s.dispatches + Announcements(rival.value.batch))
  }

  /** From `a` to `b`, one intake's part of the store becomes `s`, and nothing else changes. */
  ghost predicate Becomes(a: Tables, b: Tables, id: nat, transactionId: nat, s: Snapshot) {
    && b.intakes == a.intakes[id := s.row]
    && Of(b.notifications, transactionId) == s.children
    && b.dispatches == s.dispatches
    && SameElsewhere(a.notifications, b.notifications, transactionId)
  }

  /** The intake's part of the store. */
  ghost predicate Holds(a: Tables, id: nat, transactionId: nat, s: Snapshot) {
    && id in a.intakes && a.intakes[id] == s.row
    && Of(a.notifications, transactionId) == s.children && a.dispatches == s.dispatches
  }

  lemma BecomesTwice(a: Tables, b: Tables, c: Tables, id: nat, transactionId: nat, s1: Snapshot, s2: Snapshot)
    requires Becomes(a, b, id, transactionId, s1) && Becomes(b, c, id, transactionId, s2)
    ensures Becomes(a, c, id, transactionId, s2) && Holds(c, id, transactionId, s2)
  {
  }

  /** The children for the channels that have none, in the order of `channels`. */
  function BuildAll(i: Intake, plan: Plan, channels: seq<Channel>, existing: set<Channel>, nextId: nat, inp: Inputs)
    : Result<seq<N.Notification>, Trouble>
    decreases |channels|
  {
    if channels == [] then Ok([])
    else if channels[0] in existing then BuildAll(i, plan, channels[1..], existing, nextId, inp)
    else if inp.ContentOf(i.payload, channels[0]).None? then Err(CannotRender(channels[0]))
    else
      match Child(i, plan, channels[0], nextId, inp.ContentOf(i.payload, channels[0]).value, inp.Verdict(channels[0]),
                  inp.buildAt)
      case Err(e) => Err(BadChild(e))
      case Ok(n) =>
        match BuildAll(i, plan, channels[1..], existing, nextId + 1, inp)
        case Err(t) => Err(t)
        case Ok(others) => Ok([n] + others)
  }

  /** The claimed intake with its plan: the stored one, or else a fresh decision. */
  function Decided(i: Intake, inp: Inputs): Result<Intake, Trouble> {
    if !inp.recipientKnown then Err(UnknownRecipient)
    else if i.plan.Some? then Ok(i)
    else
      match Decide(i.payload, i.constraints, inp.answer, inp.topics, inp.planAt)
      case Err(e) => Err(NoPlan(e))
      case Ok(plan) => Ok(Written(WithPlan(i, plan), i))
  }

  function Written(o: Outcome, otherwise: Intake): Intake {
    if o.Ok? then o.value else otherwise
  }

  /** Give up, unless the row is locked or somebody finished it meanwhile. */
  function GivenUp(row: Intake, reason: string, inp: Inputs): Intake {
    if inp.lockedAtFailure || row.Finished() then row else Written(Fail(row, reason), row)
  }

  const TOO_MANY_ATTEMPTS := "too many attempts"

  /** The claimed intake with a plan, or the reason to give up. */
  function Prepared(claimed: Intake, maxAttempts: nat, inp: Inputs): Result<Intake, string> {
    if claimed.attempts > maxAttempts then Err(TOO_MANY_ATTEMPTS) else
    match Decided(claimed, inp)
    case Err(t) => Err(Reason(t))
    case Ok(planned) => if planned.plan.None? then Err("plan is missing") else Ok(planned)
  }

  /** The intake the worker goes on with. */
  function InHand(claimed: Intake, prepared: Result<Intake, string>): Intake {
    if prepared.Ok? then prepared.value else claimed
  }

  /** A fresh plan is stored over whatever the row is by then. */
  function Planning(s: Snapshot, claimed: Intake, prepared: Result<Intake, string>): Snapshot {
    if prepared.Ok? && claimed.plan.None? then s.(row := prepared.value) else s
  }

  type BuildOutcome = Result<seq<N.Notification>, string>

  /** The children to be saved, or the reason to give up. */
  function BatchOf(prepared: Result<Intake, string>, existing: seq<N.Notification>, inp: Inputs): BuildOutcome {
    match prepared
    case Err(reason) => Err(reason)
    case Ok(i) =>
      if i.plan.None? then Err("plan is missing") else
      match BuildAll(i, i.plan.value, i.plan.value.channels, Elements(Channels(existing)), inp.nextId, inp)
      case Err(t) => Err(Reason(t))
      case Ok(batch) => Ok(batch)
  }

  /** The last transaction on what it finds, and whether it ends in a unique violation. */
  function Concluded(found: Snapshot, row: Intake, outcome: BuildOutcome, inp: Inputs): (Snapshot, bool) {
    match outcome
    case Err(reason) => (found.(row := GivenUp(found.row, reason, inp)), false)
    case Ok(batch) =>
      if !Insertable(found.children, batch) then (found, true) else
      var done := Written(Complete(row, inp.doneAt), row);
      (Snapshot(done, found.children + batch, found.dispatches + Announcements(batch)), false)
  }

  /** The store right before the children are built. */
  function BeforeBuild(claimed: Intake, s: Snapshot, maxAttempts: nat, rivals: Rivals, inp: Inputs): Snapshot {
    Commit(Planning(Commit(s, rivals.afterClaim), claimed, Prepared(claimed, maxAttempts, inp)), rivals.afterPlan)
  }

  /** What happens once the intake is claimed. */
  function Worked(claimed: Intake, s: Snapshot, maxAttempts: nat, rivals: Rivals, inp: Inputs): (Snapshot, bool) {
    var prepared := Prepared(claimed, maxAttempts, inp);
    var before := BeforeBuild(claimed, s, maxAttempts, rivals, inp);
    var outcome := BatchOf(prepared, before.children, inp);
    Concluded(Commit(before, rivals.afterBuild), InHand(claimed, prepared), outcome, inp)
  }

  /** The effect of one run, and whether it ends in a unique violation. */
  function Effect(lease: int, maxAttempts: nat, s: Snapshot, rivals: Rivals, inp: Inputs): (Snapshot, bool) {
    match Claim(s.row, inp.claimAt, lease)
    case Err(_) => (s, false)
    case Ok(claimed) => Worked(claimed, s.(row := claimed), maxAttempts, rivals, inp)
  }

  /** Children of the intake with consecutive ids, each with its own channel's content. */
  predicate WellBuilt(batch: seq<N.Notification>, i: Intake, plan: Plan, nextId: nat, inp: Inputs) {
    forall j :: 0 <= j < |batch| ==> WellBuiltChild(batch[j], i, plan, nextId + j, inp)
  }

  predicate WellBuiltChild(n: N.Notification, i: Intake, plan: Plan, id: nat, inp: Inputs) {
    && n.id == id && Inherits(n, i, plan)
    && n.status in {N.Pending, N.Postponed, N.Suppressed}
    && inp.ContentOf(i.payload, n.channel) == Some(n.content)
  }

  lemma PrependChild(n: N.Notification, batch: seq<N.Notification>, i: Intake, plan: Plan, nextId: nat, inp: Inputs)
    requires WellBuiltChild(n, i, plan, nextId, inp) && WellBuilt(batch, i, plan, nextId + 1, inp)
    ensures WellBuilt([n] + batch, i, plan, nextId, inp)
    ensures Channels([n] + batch) == [n.channel] + Channels(batch)
  {
  }

  lemma ChildIsWellBuilt(i: Intake, plan: Plan, c: Channel, id: nat, inp: Inputs)
    requires i.payload.Valid() && inp.ContentOf(i.payload, c).Some?
    ensures var child := Child(i, plan, c, id, inp.ContentOf(i.payload, c).value, inp.Verdict(c), inp.buildAt);
            child.Ok? && WellBuiltChild(child.value, i, plan, id, inp) && child.value.channel == c
  {
    ChildrenAreWellBuilt(i, plan, c, id, inp.ContentOf(i.payload, c).value, inp.Verdict(c), inp.buildAt);
  }

  /** Building succeeds exactly when every outstanding channel can be rendered, and then
      gives one child for each of them, in the plan's order and with consecutive ids,
      carrying that channel's content. */
  lemma {:induction false} BuildsTheOutstanding(i: Intake, plan: Plan, channels: seq<Channel>, existing: set<Channel>,
                                                nextId: nat, inp: Inputs)
    requires i.payload.Valid()
    ensures BuildAll(i, plan, channels, existing, nextId, inp).Ok? <==>
              forall c :: c in Outstanding(channels, existing) ==> inp.ContentOf(i.payload, c).Some?
    ensures BuildAll(i, plan, channels, existing, nextId, inp).Ok? ==>
              var batch := BuildAll(i, plan, channels, existing, nextId, inp).value;
              Channels(batch) == Outstanding(channels, existing) && WellBuilt(batch, i, plan, nextId, inp)
    decreases |channels|
  {
    if channels == [] {
    } else {
      var c, rest := channels[0], channels[1..];
      if c in existing {
        BuildsTheOutstanding(i, plan, rest, existing, nextId, inp);
      } else if inp.ContentOf(i.payload, c).None? {
        assert c in Outstanding(channels, existing);
      } else {
        BuildsTheOutstanding(i, plan, rest, existing, nextId + 1, inp);
        ChildIsWellBuilt(i, plan, c, nextId, inp);
        var n := Child(i, plan, c, nextId, inp.ContentOf(i.payload, c).value, inp.Verdict(c), inp.buildAt).value;
        var others := BuildAll(i, plan, rest, existing, nextId + 1, inp);
        if others.Ok? {
          PrependChild(n, others.value, i, plan, nextId, inp);
        }
      }
    }
  }

  /** Preparing keeps the intake in hand valid, and gives it a plan or a reason. */
  lemma PreparedIsSound(claimed: Intake, maxAttempts: nat, inp: Inputs)
    requires claimed.Valid() && claimed.status.Processing?
    ensures var prepared := Prepared(claimed, maxAttempts, inp);
            var row := InHand(claimed, prepared);
            && row.Valid() && row.status.Processing? && row == claimed.(plan := row.plan)
            && (if prepared.Ok? then row.plan.Some? else prepared.error != "" && row == claimed)
            && (claimed.plan.Some? ==> row == claimed)
  {
  }

  lemma BatchIsSound(prepared: Result<Intake, string>, existing: seq<N.Notification>, inp: Inputs)
    requires prepared.Err? ==> prepared.error != ""
    ensures BatchOf(prepared, existing, inp).Err? ==> BatchOf(prepared, existing, inp).error != ""
    ensures BatchOf(prepared, existing, inp).Ok? ==> prepared.Ok? && prepared.value.plan.Some?
  {
  }

  // ---- The service ----

  /** Inserting one more child of a batch. */
  lemma ExtendsByOne(all: Children, transactionId: nat, batch: seq<N.Notification>, k: nat)
    requires k < |batch|
    ensures Extended(Extended(all, transactionId, batch[..k]), transactionId, [batch[k]])
            == Extended(all, transactionId, batch[..k + 1])
    ensures Announcements(batch[..k + 1]) ==
              Announcements(batch[..k]) + if Announced(batch[k]) then [Outbox.DispatchEntry(batch[k])] else []
  {
    assert batch[..k + 1] == batch[..k] + [batch[k]] && batch[..k + 1][..k] == batch[..k];
    assert Of(all, transactionId) + batch[..k] + [batch[k]] == Of(all, transactionId) + batch[..k + 1];
  }

  /** Only the children of one transaction differ. */
  ghost predicate SameElsewhere(before: Children, after: Children, transactionId: nat) {
    forall other: nat :: other != transactionId ==> Of(after, other) == Of(before, other)
  }

  lemma ExtendedChildren(all: Children, transactionId: nat, batch: seq<N.Notification>)
    ensures Of(Extended(all, transactionId, batch), transactionId) == Of(all, transactionId) + batch
    ensures SameElsewhere(all, Extended(all, transactionId, batch), transactionId)
  {
  }

  lemma InsertableSplits(children: seq<N.Notification>, batch: seq<N.Notification>, k: nat)
    requires k < |batch| && Distinct(Channels(children + batch[..k]))
    ensures Insertable(children, batch) ==> Insertable(children + batch[..k], [batch[k]])
    ensures Insertable(children, batch[..k + 1]) == Insertable(children + batch[..k], [batch[k]])
  {
    assert children + batch[..k] + [batch[k]] == children + batch[..k + 1];
    assert Channels(children + batch[..k + 1]) == Channels(children + batch)[..|children| + k + 1];
  }

  function Continued(children: seq<N.Notification>, others: Result<seq<N.Notification>, Trouble>)
    : Result<seq<N.Notification>, Trouble>
  {
    if others.Ok? then Ok(children + others.value) else others
  }

  class IntakeProcessor {
    const store: IntakeStore
    const lease: int
    const maxAttempts: nat

    constructor (store: IntakeStore, lease: int, maxAttempts: nat)
      ensures this.store == store && this.lease == lease && this.maxAttempts == maxAttempts
    {
      this.store, this.lease, this.maxAttempts := store, lease, maxAttempts;
    }

    /** Claim the intake, if it is there, not locked, and claimable. */
    method ClaimIntake(id: nat, inp: Inputs) returns (r: Option<Intake>)
      requires store.Valid()
      modifies store`intakes
      ensures store.Valid()
      ensures r.Some? <==>
                id in old(store.intakes) && !inp.locked && old(store.intakes)[id].Claimable(inp.claimAt, lease)
      ensures r.None? ==> store.intakes == old(store.intakes)
      ensures r.Some? ==> && Claim(old(store.intakes)[id], inp.claimAt, lease) == Ok(r.value)
                          && store.intakes == old(store.intakes)[id := r.value]
    {
      var intake := store.GetForUpdate(id, inp.locked);
      if intake.None? || !intake.value.Claimable(inp.claimAt, lease) {
        return None;
      }
      var claimed := Claim(intake.value, inp.claimAt, lease);
      store.Save(claimed.value);
      r := Some(claimed.value);
    }

    /** Decide on a plan and store it. */
    method DecideAndStore(i: Intake, inp: Inputs) returns (r: Result<Intake, Trouble>)
      requires store.Valid() && i.Valid() && i.status.Processing? && i.payload.Valid() && i.plan.None?
      modifies store`intakes
      ensures store.Valid()
      ensures r == Decided(i, inp.(recipientKnown := true))
      ensures store.intakes == if r.Ok? then old(store.intakes)[i.id := r.value] else old(store.intakes)
    {
      var plan := Decide(i.payload, i.constraints, inp.answer, inp.topics, inp.planAt);
      if plan.Err? {
        return Err(NoPlan(plan.error));
      }
      var planned := WithPlan(i, plan.value);
      store.Save(planned.value);
      r := Ok(planned.value);
    }

    /** Build the children the plan still needs. */
    method BuildChildren(i: Intake, plan: Plan, existing: set<Channel>, inp: Inputs)
      returns (r: Result<seq<N.Notification>, Trouble>)
      ensures r == BuildAll(i, plan, plan.channels, existing, inp.nextId, inp)
    {
      var children := [];
      ghost var whole := BuildAll(i, plan, plan.channels, existing, inp.nextId, inp);
      assert plan.channels[0..] == plan.channels;
      assert whole.Ok? ==> [] + whole.value == whole.value;
      for k := 0 to |plan.channels|
        invariant whole
                  == Continued(children, BuildAll(i, plan, plan.channels[k..], existing, inp.nextId + |children|, inp))
      {
        var channel := plan.channels[k];
        ghost var before, next := children, inp.nextId + |children| + 1;
        ghost var rest := BuildAll(i, plan, plan.channels[k + 1..], existing, next, inp);
        assert plan.channels[k..][1..] == plan.channels[k + 1..];
        if channel !in existing {
          var content := inp.ContentOf(i.payload, channel);
          if content.None? {
            return Err(CannotRender(channel));
          }
          var child := Child(i, plan, channel, inp.nextId + |children|, content.value, inp.Verdict(channel),
                inp.buildAt);
          if child.Err? {
            return Err(BadChild(child.error));
          }
          children := children + [child.value];
          assert rest.Ok? ==> children + rest.value == before + ([child.value] + rest.value);
        }
      }
      assert plan.channels[|plan.channels|..] == [] && children + [] == children;
      r := Ok(children);
    }

    /** Insert the children of one transaction one by one, each with its announcement; the
        first one that is refused ends it. */
    method InsertAll(transactionId: nat, batch: seq<N.Notification>) returns (refused: bool)
      requires store.Valid() && forall n :: n in batch ==> n.transactionId == transactionId
      modifies store`notifications, store`dispatches
      ensures store.Valid()
      ensures refused == !Insertable(old(store.ChildrenOf(transactionId)), batch)
      ensures !refused ==> store.dispatches == old(store.dispatches) + Announcements(batch)
      ensures !refused ==> store.notifications == Extended(old(store.notifications), transactionId, batch)
    {
      ghost var notifications, children := store.notifications, store.ChildrenOf(transactionId);
      assert children + batch[..0] == children;
      for k := 0 to |batch|
        invariant store.Valid()
        invariant store.notifications == Extended(notifications, transactionId, batch[..k])
        invariant store.dispatches == old(store.dispatches) + Announcements(batch[..k])
        invariant Distinct(Channels(children + batch[..k]))
      {
        InsertableSplits(children, batch, k);
        ExtendedChildren(notifications, transactionId, batch[..k]);
        ExtendsByOne(notifications, transactionId, batch, k);
        assert batch[k] in batch;
        var inserted := store.Insert(batch[k]);
        if !inserted {
          return true;
        }
        if Announced(batch[k]) {
          store.EnqueueDispatch(batch[k]);
        }
      }
      assert batch[..|batch|] == batch;
      refused := false;
    }

    /** Save the children with their announcements and complete the intake, or leave
        everything as it was when the transaction already has one of the channels. */
    method SaveChildren(row: Intake, batch: seq<N.Notification>, doneAt: int) returns (refused: bool)
      requires store.Valid() && row.Valid() && row.payload.Valid() && row.status.Processing? && row.plan.Some?
      requires forall n :: n in batch ==> n.transactionId == row.transactionId
      modifies store
      ensures store.Valid()
      ensures refused == !Insertable(old(store.ChildrenOf(row.transactionId)), batch)
      ensures refused ==> store.intakes == old(store.intakes) && store.notifications == old(store.notifications)
                          && store.dispatches == old(store.dispatches)
      ensures !refused ==> && store.intakes == old(store.intakes)[row.id := Complete(row, doneAt).value]
                           && store.notifications == Extended(old(store.notifications), row.transactionId, batch)
                           && store.dispatches == old(store.dispatches) + Announcements(batch)
    {
      var notifications, dispatches := store.notifications, store.dispatches;
      refused := InsertAll(row.transactionId, batch);
      if refused {
        store.notifications, store.dispatches := notifications, dispatches;
        return;
      }
      var done := Complete(row, doneAt);
      store.Save(done.value);
    }

    /** Record a failure, unless the row is locked, gone or finished. */
    method RecordFailure(id: nat, reason: string, inp: Inputs)
      requires store.Valid() && reason != ""
      modifies store`intakes
      ensures store.Valid()
      ensures id !in old(store.intakes) ==> store.intakes == old(store.intakes)
      ensures id in old(store.intakes) ==>
                store.intakes == old(store.intakes)[id := GivenUp(old(store.intakes)[id], reason, inp)]
    {
      var current := store.GetForUpdate(id, inp.lockedAtFailure);
      if current.None? || current.value.Finished() {
        return;
      }
      var failed := Fail(current.value, reason);
      store.Save(failed.value);
    }

    /** What other workers on the same intake commit in the middle of this run, if any. */
    method Disturb(id: nat, transactionId: nat, rival: Option<Rival>, ghost s: Snapshot)
      requires store.Valid() && Holds(store.All(), id, transactionId, s) && Admissible(id, s.children, rival)
      modifies store
      ensures store.Valid() && Becomes(old(store.All()), store.All(), id, transactionId, Commit(s, rival))
      ensures Holds(store.All(), id, transactionId, Commit(s, rival))
    {
      if rival.Some? {
        store.Save(rival.value.row);
        store.notifications := Extended(store.notifications, transactionId, rival.value.batch);
        store.dispatches := store.dispatches + Announcements(rival.value.batch);
        ExtendedChildren(old(store.notifications), transactionId, rival.value.batch);
      }
    }

    /** From the claim to a plan: too many attempts, an unknown recipient, the stored plan or
        a new one, which is stored. */
    method Prepare(intake: Intake, inp: Inputs, ghost s: Snapshot) returns (prepared: Result<Intake, string>)
      requires store.Valid() && intake.Valid() && intake.status.Processing? && intake.payload.Valid()
      requires Holds(store.All(), intake.id, intake.transactionId, s)
      modifies store`intakes
      ensures store.Valid() && prepared == Prepared(intake, maxAttempts, inp)
      ensures Becomes(old(store.All()), store.All(), intake.id, intake.transactionId, Planning(s, intake, prepared))
    {
      if intake.attempts > maxAttempts {
        return Err(TOO_MANY_ATTEMPTS);
      }
      if !inp.recipientKnown {
        return Err(Reason(UnknownRecipient));
      }
      if intake.plan.Some? {
        return Ok(intake);
      }
      var planned := DecideAndStore(intake, inp);
      prepared := if planned.Err? then Err(Reason(planned.error)) else Ok(planned.value);
    }

    /** The children of a prepared intake, given those that exist by then. */
    method Build(transactionId: nat, prepared: Result<Intake, string>, inp: Inputs) returns (outcome: BuildOutcome)
      requires prepared.Ok? ==> prepared.value.plan.Some? && prepared.value.payload.Valid()
      requires prepared.Ok? ==> prepared.value.transactionId == transactionId
      ensures outcome == BatchOf(prepared, store.ChildrenOf(transactionId), inp)
      ensures outcome.Ok? ==> forall n :: n in outcome.value ==> n.transactionId == transactionId
    {
      if prepared.Err? {
        return Err(prepared.error);
      }
      var i := prepared.value;
      var existing := Elements(Channels(store.ChildrenOf(transactionId)));
      var children := BuildChildren(i, i.plan.value, existing, inp);
      if children.Err? {
        return Err(Reason(children.error));
      }
      outcome := Ok(children.value);
      BuildsTheOutstanding(i, i.plan.value, i.plan.value.channels, existing, inp.nextId, inp);
      forall n | n in children.value ensures n.transactionId == transactionId {
        var j :| 0 <= j < |children.value| && children.value[j] == n;
        assert WellBuiltChild(children.value[j], i, i.plan.value, inp.nextId + j, inp);
      }
    }

    /** The last transaction of a run. */
    method Conclude(row: Intake, outcome: BuildOutcome, inp: Inputs, ghost s: Snapshot) returns (refused: bool)
      requires store.Valid() && Holds(store.All(), row.id, row.transactionId, s)
      requires row.Valid() && row.payload.Valid() && row.status.Processing?
      requires if outcome.Err? then outcome.error != ""
               else row.plan.Some? && forall n :: n in outcome.value ==> n.transactionId == row.transactionId
      modifies store
      ensures store.Valid()
      ensures var (end, violation) := Concluded(s, row, outcome, inp);
              refused == violation && Becomes(old(store.All()), store.All(), row.id, row.transactionId, end)
    {
      match outcome {
        case Err(reason) =>
          RecordFailure(row.id, reason, inp);
          refused := false;
        case Ok(batch) =>
          refused := SaveChildren(row, batch, inp.doneAt);
          ExtendedChildren(old(store.notifications), row.transactionId, batch);
      }
    }

    /** From the claim up to the point where the children are built. */
    method PrepareAmidOthers(intake: Intake, rivals: Rivals, inp: Inputs, ghost s: Snapshot)
      returns (prepared: Result<Intake, string>)
      requires store.Valid() && intake.Valid() && intake.status.Processing? && intake.payload.Valid()
      requires Holds(store.All(), intake.id, intake.transactionId, s) && AllAdmissible(intake.id, s.children, rivals)
      modifies store
      ensures store.Valid() && prepared == Prepared(intake, maxAttempts, inp)
      ensures Becomes(old(store.All()), store.All(), intake.id, intake.transactionId,
                      BeforeBuild(intake, s, maxAttempts, rivals, inp))
    {
      ghost var id, t, start := intake.id, intake.transactionId, store.All();
      ghost var s1 := Commit(s, rivals.afterClaim);
      Disturb(intake.id, intake.transactionId, rivals.afterClaim, s);
      ghost var a := store.All();
      prepared := Prepare(intake, inp, s1);
      ghost var s2 := Planning(s1, intake, prepared);
      BecomesTwice(start, a, store.All(), id, t, s1, s2);
      a := store.All();
      Disturb(intake.id, intake.transactionId, rivals.afterPlan, s2);
      BecomesTwice(start, a, store.All(), id, t, s2, Commit(s2, rivals.afterPlan));
    }

    /** Everything after the claim. */
    method Work(intake: Intake, rivals: Rivals, inp: Inputs, ghost s: Snapshot) returns (refused: bool)
      requires store.Valid() && intake.Valid() && intake.status.Processing? && intake.payload.Valid()
      requires Holds(store.All(), intake.id, intake.transactionId, s) && AllAdmissible(intake.id, s.children, rivals)
      modifies store
      ensures store.Valid()
      ensures var (end, violation) := Worked(intake, s, maxAttempts, rivals, inp);
              refused == violation && Becomes(old(store.All()), store.All(), intake.id, intake.transactionId, end)
    {
      ghost var id, t, start := intake.id, intake.transactionId, store.All();
      PreparedIsSound(intake, maxAttempts, inp);
      var prepared := PrepareAmidOthers(intake, rivals, inp, s);
      ghost var before := BeforeBuild(intake, s, maxAttempts, rivals, inp);
      var outcome := Build(intake.transactionId, prepared, inp);
      BatchIsSound(prepared, before.children, inp);
      ghost var a := store.All();
      ghost var found := Commit(before, rivals.afterBuild);
      Disturb(intake.id, intake.transactionId, rivals.afterBuild, before);
      BecomesTwice(start, a, store.All(), id, t, before, found);
      a := store.All();
      var row := InHand(intake, prepared);
      refused := Conclude(row, outcome, inp, found);
      BecomesTwice(start, a, store.All(), id, t, found, Concluded(found, row, outcome, inp).0);
    }

    /** Handle one intake message, while others work on the same intake.  The intake, its
        children and the announcements end as `Effect` says, and nothing else changes; the
        message is refused, with this run's children undone, when somebody else has created
        one of them since this run looked. */
    method Process(id: nat, rivals: Rivals, inp: Inputs) returns (refused: bool)
      requires store.Valid()
      requires id in store.intakes ==>
                 AllAdmissible(id, Of(store.notifications, store.intakes[id].transactionId), rivals)
      modifies store
      ensures store.Valid()
      ensures id !in old(store.intakes) || inp.locked ==> !refused && store.All() == old(store.All())
      ensures id in old(store.intakes) && !inp.locked ==>
                var t := old(store.intakes)[id].transactionId;
                var s := Snapshot(old(store.intakes)[id], Of(old(store.notifications), t), old(store.dispatches));
                var (end, violation) := Effect(lease, maxAttempts, s, rivals, inp);
                refused == violation && Becomes(old(store.All()), store.All(), id, t, end)
    {
      var claim := ClaimIntake(id, inp);
      if claim.None? {
        return false;
      }
      ghost var a := store.All();
      ghost var t := claim.value.transactionId;
      ghost var s := Snapshot(claim.value, Of(old(store.notifications), t), old(store.dispatches));
      refused := Work(claim.value, rivals, inp, s);
      BecomesTwice(old(store.All()), a, store.All(), id, t, s, Worked(claim.value, s, maxAttempts, rivals, inp).0);
    }
  }
}
