/** What survives overlapping leases, and what holds when runs do not overlap. */
module IntakeSafety {
  import opened Domain
  import opened NotificationIntake
  import opened IntakeProtocol
  import N = NotificationEntity
  import Outbox
  import PlanAssembly

  predicate Touches(s: Step, k: nat) {
    !s.Tick? && s.worker == k
  }

  lemma OthersKeepTheirPhase(w: World, s: Step, k: nat)
    requires Next(w, s).Some? && !Touches(s, k)
    ensures PhaseOf(Next(w, s).value, k) == PhaseOf(w, k)
  {
  }

  // ---- Every interleaving, expired leases included ----

  predicate Covered(plan: seq<Channel>, a: seq<N.Notification>, b: seq<N.Notification>) {
    forall c :: c in plan ==> c in Channels(a) || c in Channels(b)
  }

  /** A worker's private copy of the intake, in any execution. */
  predicate PhaseSound(w: World, p: Phase) {
    match p
    case Idle => true
    case Claimed(i) => i.Valid() && i.status.Processing?
    case Planned(i) => i.Valid() && i.status.Processing? && i.plan.Some?
    case Built(i, batch) =>
      i.Valid() && i.status.Processing? && i.plan.Some? && Covered(i.plan.value.channels, w.children, batch)
    case Failing(i, reason) => i.Valid() && i.status.Processing? && reason != ""
  }

  /** Holds in every execution: one child per channel, one announcement per child to be
      delivered, and a completed intake has a child for every channel of its plan. */
  ghost predicate Sound(w: World) {
    && w.row.Valid()
    && Distinct(Channels(w.children))
    && w.dispatches == Announcements(w.children)
    && (w.row.status.Completed? ==> Covered(w.row.plan.value.channels, w.children, []))
    && forall k: nat :: PhaseSound(w, PhaseOf(w, k))
  }

  lemma {:induction false} AnnouncementsConcatenate(a: seq<N.Notification>, b: seq<N.Notification>)
    ensures Announcements(a + b) == Announcements(a) + Announcements(b)
    decreases |b|
  {
    if b == [] {
      assert a + b == a;
    } else {
      var front := b[..|b| - 1];
      assert (a + b)[..|a + b| - 1] == a + front;
      AnnouncementsConcatenate(a, front);
    }
  }

  lemma {:induction false} OutstandingCovers(channels: seq<Channel>, existing: set<Channel>, c: Channel)
    ensures c in Outstanding(channels, existing) <==> c in channels && c !in existing
  {
    if channels == [] {
    } else {
      OutstandingCovers(channels[1..], existing, c);
    }
  }

  lemma ChannelsOfBoth(a: seq<N.Notification>, b: seq<N.Notification>)
    ensures Channels(a + b) == Channels(a) + Channels(b)
  {
  }

  lemma BatchesCover(w: World, i: Intake, batch: seq<N.Notification>)
    requires BatchFor(w, i, batch)
    ensures Covered(i.plan.value.channels, w.children, batch)
  {
    forall c | c in i.plan.value.channels ensures c in Channels(w.children) || c in Channels(batch) {
      OutstandingCovers(i.plan.value.channels, Elements(Channels(w.children)), c);
    }
  }

  /** Children are only ever added. */
  lemma ChildrenStay(w: World, s: Step)
    requires Next(w, s).Some?
    ensures w.children <= Next(w, s).value.children
  {
  }

  lemma CoverageStays(plan: seq<Channel>, a: seq<N.Notification>, b: seq<N.Notification>, more: seq<N.Notification>)
    requires Covered(plan, a, b)
    ensures Covered(plan, a + more, b)
  {
    ChannelsOfBoth(a, more);
  }

  lemma SavedBatchIsCovered(plan: seq<Channel>, a: seq<N.Notification>, b: seq<N.Notification>)
    requires Covered(plan, a, b)
    ensures Covered(plan, a + b, [])
  {
    ChannelsOfBoth(a, b);
  }

  lemma PhasesStaySound(w: World, s: Step, k: nat)
    requires Sound(w) && Next(w, s).Some?
    ensures PhaseSound(Next(w, s).value, PhaseOf(Next(w, s).value, k))
  {
    var v := Next(w, s).value;
    assert PhaseSound(w, PhaseOf(w, k));
    if !Touches(s, k) {
      OthersKeepTheirPhase(w, s, k);
      ChildrenStay(w, s);
      if PhaseOf(w, k).Built? {
        var p := PhaseOf(w, k);
        CoverageStays(p.intake.plan.value.channels, w.children, p.batch, v.children[|w.children|..]);
        assert v.children == w.children + v.children[|w.children|..];
      }
    } else if s.BuildBatch? {
      BatchesCover(w, PhaseOf(w, k).intake, s.batch);
    }
  }

  lemma RowStaysSound(w: World, s: Step)
    requires Sound(w) && Next(w, s).Some?
    ensures var v := Next(w, s).value;
            && v.row.Valid()
            && (v.row.status.Completed? ==> Covered(v.row.plan.value.channels, v.children, []))
  {
    assert !s.Tick? ==> PhaseSound(w, PhaseOf(w, s.worker));
    if s.SaveBatch? {
      var p := PhaseOf(w, s.worker);
      SavedBatchIsCovered(p.intake.plan.value.channels, w.children, p.batch);
    }
  }

  lemma SoundStep(w: World, s: Step)
    requires Sound(w) && Next(w, s).Some?
    ensures Sound(Next(w, s).value)
  {
    RowStaysSound(w, s);
    forall k: nat ensures PhaseSound(Next(w, s).value, PhaseOf(Next(w, s).value, k)) {
      PhasesStaySound(w, s, k);
    }
    if s.SaveBatch? {
      AnnouncementsConcatenate(w.children, PhaseOf(w, s.worker).batch);
    }
  }

  /** In every interleaving: one child per channel, the announcements are exactly those of
      the children created pending or postponed, in order, and COMPLETED implies a child
      for every channel of the stored plan.  What the row stores fits its status. */
  lemma {:induction false} AlwaysSound(states: seq<World>, steps: seq<Step>, i: nat)
    requires Execution(states, steps) && i < |states|
    ensures Sound(states[i])
    ensures var r := states[i].row;
            && (r.status == Received ==> r.plan == None && r.claimedAt == None)
            && (r.status == Processing ==> r.claimedAt != None)
            && (r.status == Completed ==> r.plan != None)
            && (r.status == Completed <==> r.completedAt != None)
            && (r.status == Failed <==> r.failureReason != None) && r.failureReason != Some("")
  {
    if i == 0 {
      forall k: nat ensures PhaseOf(states[0], k).Idle? {}
    } else {
      AlwaysSound(states, steps, i - 1);
      assert Next(states[i - 1], steps[i - 1]) == Some(states[i]);
      SoundStep(states[i - 1], steps[i - 1]);
    }
  }

  // ---- Announcements are one to one ----

  predicate IdsApart(a: seq<N.Notification>, b: seq<N.Notification>) {
    forall i, j :: 0 <= i < |a| && 0 <= j < |b| ==> a[i].id != b[j].id
  }

  /** Distinct ids, all taken. */
  predicate Numbered(w: World, ns: seq<N.Notification>) {
    && (forall i :: 0 <= i < |ns| ==> ns[i].id < w.nextId)
    && (forall i, j :: 0 <= i < j < |ns| ==> ns[i].id != ns[j].id)
  }

  predicate NumberedPhase(w: World, p: Phase) {
    p.Built? ==> Numbered(w, p.batch) && IdsApart(w.children, p.batch)
  }

  predicate ApartPhases(p: Phase, q: Phase) {
    p.Built? && q.Built? ==> IdsApart(p.batch, q.batch)
  }

  /** No two children share an id, saved or about to be. */
  ghost predicate WellNumbered(w: World) {
    && Numbered(w, w.children)
    && (forall k: nat :: NumberedPhase(w, PhaseOf(w, k)))
    && (forall j: nat, k: nat :: j != k ==> ApartPhases(PhaseOf(w, j), PhaseOf(w, k)))
  }

  lemma FreshBatchesAreApart(w: World, i: Intake, batch: seq<N.Notification>, ns: seq<N.Notification>)
    requires BatchFor(w, i, batch) && Numbered(w, ns)
    ensures IdsApart(ns, batch) && IdsApart(batch, ns) && Numbered(w.(nextId := w.nextId + |batch|), batch)
  {
  }

  lemma JoinNumbered(w: World, batch: seq<N.Notification>)
    requires Numbered(w, w.children) && Numbered(w, batch) && IdsApart(w.children, batch)
    ensures Numbered(w, w.children + batch)
  {
  }

  lemma NumberedPhaseStep(w: World, s: Step, k: nat)
    requires WellNumbered(w) && Next(w, s).Some?
    ensures NumberedPhase(Next(w, s).value, PhaseOf(Next(w, s).value, k))
  {
    assert NumberedPhase(w, PhaseOf(w, k));
    if s.BuildBatch? && k == s.worker {
      FreshBatchesAreApart(w, PhaseOf(w, k).intake, s.batch, w.children);
    } else if !Touches(s, k) {
      OthersKeepTheirPhase(w, s, k);
      if s.SaveBatch? {
        assert ApartPhases(PhaseOf(w, s.worker), PhaseOf(w, k));
      }
    }
  }

  lemma ApartPhasesStep(w: World, s: Step, j: nat, k: nat)
    requires WellNumbered(w) && Next(w, s).Some? && j != k
    ensures ApartPhases(PhaseOf(Next(w, s).value, j), PhaseOf(Next(w, s).value, k))
  {
    assert ApartPhases(PhaseOf(w, j), PhaseOf(w, k));
    assert NumberedPhase(w, PhaseOf(w, j)) && NumberedPhase(w, PhaseOf(w, k));
    if !Touches(s, j) {
      OthersKeepTheirPhase(w, s, j);
      if s.BuildBatch? && k == s.worker && PhaseOf(w, j).Built? {
        FreshBatchesAreApart(w, PhaseOf(w, k).intake, s.batch, PhaseOf(w, j).batch);
      }
    }
    if !Touches(s, k) {
      OthersKeepTheirPhase(w, s, k);
      if s.BuildBatch? && j == s.worker && PhaseOf(w, k).Built? {
        FreshBatchesAreApart(w, PhaseOf(w, j).intake, s.batch, PhaseOf(w, k).batch);
      }
    }
  }

  lemma WellNumberedStep(w: World, s: Step)
    requires WellNumbered(w) && Next(w, s).Some?
    ensures WellNumbered(Next(w, s).value)
  {
    var v := Next(w, s).value;
    forall k: nat ensures NumberedPhase(v, PhaseOf(v, k)) {
      NumberedPhaseStep(w, s, k);
    }
    forall j: nat, k: nat | j != k ensures ApartPhases(PhaseOf(v, j), PhaseOf(v, k)) {
      ApartPhasesStep(w, s, j, k);
    }
    if s.SaveBatch? {
      assert NumberedPhase(w, PhaseOf(w, s.worker));
      JoinNumbered(w, PhaseOf(w, s.worker).batch);
    }
  }

  function Ids(ns: seq<N.Notification>): seq<nat> {
    seq(|ns|, i requires 0 <= i < |ns| => ns[i].id)
  }

  function Subjects(entries: seq<Outbox.Entry>): seq<nat> {
    seq(|entries|, i requires 0 <= i < |entries| => entries[i].aggregateId)
  }

  /** Children with distinct ids are announced at most once each, and exactly when pending
      or postponed. */
  lemma {:induction false} AnnouncedOnce(ns: seq<N.Notification>)
    requires Distinct(Ids(ns))
    ensures Distinct(Subjects(Announcements(ns)))
    ensures forall id :: id in Subjects(Announcements(ns)) <==> exists n :: n in ns && Announced(n) && n.id == id
  {
    if ns == [] {
    } else {
      var front, last := ns[..|ns| - 1], ns[|ns| - 1];
      assert Ids(front) == Ids(ns)[..|ns| - 1];
      AnnouncedOnce(front);
      var entries := Announcements(front);
      assert forall n :: n in ns <==> n in front || n == last;
      forall n | n in front ensures n.id != last.id {
        var i: nat :| i < |front| && front[i] == n;
        assert Ids(ns)[i] != Ids(ns)[|ns| - 1];
      }
      if Announced(last) {
        assert Subjects(Announcements(ns)) == Subjects(entries) + [last.id];
        assert last.id !in Subjects(entries);
      } else {
        assert Announcements(ns) == entries;
      }
    }
  }

  /** The entry announces the delivery of this child: for its due time, and ahead of the others
      if it is CRITICAL. */
  predicate Announces(e: Outbox.Entry, n: N.Notification) {
    && n.status in {N.Pending, N.Postponed}
    && e.kind == Outbox.DispatchMessage && e.aggregateId == n.id && e.availableAt == n.sendAt
    && e.priority == if n.category.Critical? then 0 else 1
  }

  lemma {:induction false} AnnouncementsFit(ns: seq<N.Notification>, e: Outbox.Entry)
    requires e in Announcements(ns)
    ensures exists n :: n in ns && Announces(e, n)
  {
    var front, last := ns[..|ns| - 1], ns[|ns| - 1];
    if e in Announcements(front) {
      AnnouncementsFit(front, e);
      var n :| n in front && Announces(e, n);
      assert n in ns;
    } else {
      assert last in ns && Announces(e, last);
    }
  }

  /** In every interleaving the announcements correspond one to one with the children that
      were created pending or postponed. */
  lemma {:induction false} AnnouncementsAreOneToOne(states: seq<World>, steps: seq<Step>, i: nat)
    requires Execution(states, steps) && i < |states|
    ensures WellNumbered(states[i])
    ensures Distinct(Subjects(states[i].dispatches))
    ensures forall id :: id in Subjects(states[i].dispatches) <==>
                           exists n :: n in states[i].children && n.status in {N.Pending, N.Postponed} && n.id == id
    ensures forall e :: e in states[i].dispatches ==> exists n :: n in states[i].children && Announces(e, n)
  {
    if i == 0 {
      forall k: nat ensures PhaseOf(states[0], k).Idle? {}
    } else {
      AnnouncementsAreOneToOne(states, steps, i - 1);
      assert Next(states[i - 1], steps[i - 1]) == Some(states[i]);
      WellNumberedStep(states[i - 1], steps[i - 1]);
    }
    AlwaysSound(states, steps, i);
    AnnouncedOnce(states[i].children);
    forall e | e in states[i].dispatches ensures exists n :: n in states[i].children && Announces(e, n) {
      AnnouncementsFit(states[i].children, e);
    }
  }

  // ---- What accept time promised ----

  /** The plan stays within what was computed when the request was accepted. */
  predicate PlanKept(plan: PlanAssembly.Plan, accepted: Intake) {
    && (forall c :: c in plan.channels ==> c in accepted.constraints.feasible)
    && 1 <= |plan.channels| <= accepted.constraints.maxChannels
    && (plan.category.Critical? <==> accepted.payload.category == Some(Critical))
    && (accepted.payload.category.Some? ==> plan.category == accepted.payload.category.value)
    && (accepted.payload.topic.Some? ==> plan.topic == accepted.payload.topic)
  }

  /** The child is what the accepted request asked for, as far as it said. */
  predicate ChildKept(n: N.Notification, accepted: Intake) {
    && n.channel in accepted.constraints.feasible
    && (n.projectId, n.recipientId, n.transactionId)
       == (accepted.projectId, accepted.recipientId, accepted.transactionId)
    && (n.category.Critical? <==> accepted.payload.category == Some(Critical))
    && (accepted.payload.category.Some? ==> n.category == accepted.payload.category.value)
    && (accepted.payload.topic.Some? ==> n.topicId == Some(accepted.payload.topic.value.id))
    && n.templateId == accepted.payload.templateId
    && (n.templateId.None? ==> accepted.payload.content == Some(n.content))
    && (accepted.payload.sendAt.Some? && !n.status.Postponed? ==> n.sendAt == Some(accepted.payload.sendAt.value.at))
  }

  /** A version of the accepted intake: the same request, with a plan that keeps to it. */
  predicate VersionOf(i: Intake, accepted: Intake) {
    && (i.projectId, i.recipientId, i.transactionId)
       == (accepted.projectId, accepted.recipientId, accepted.transactionId)
    && i.payload == accepted.payload && i.constraints == accepted.constraints
    && (i.plan.Some? ==> PlanKept(i.plan.value, accepted))
  }

  predicate PhaseKept(p: Phase, accepted: Intake) {
    && (!p.Idle? ==> VersionOf(p.intake, accepted))
    && (p.Built? ==> forall n :: n in p.batch ==> ChildKept(n, accepted))
  }

  ghost predicate Kept(w: World, accepted: Intake) {
    && VersionOf(w.row, accepted)
    && (forall n :: n in w.children ==> ChildKept(n, accepted))
    && forall k: nat :: PhaseKept(PhaseOf(w, k), accepted)
  }

  /** The children of a kept plan keep to it. */
  lemma BatchesAreKept(w: World, i: Intake, batch: seq<N.Notification>, accepted: Intake)
    requires VersionOf(i, accepted) && BatchFor(w, i, batch)
    ensures forall n :: n in batch ==> ChildKept(n, accepted)
  {
    forall n | n in batch ensures ChildKept(n, accepted) {
      var j :| 0 <= j < |batch| && batch[j] == n;
      assert Channels(batch)[j] == n.channel && n.channel in Channels(batch);
      OutstandingCovers(i.plan.value.channels, Elements(Channels(w.children)), n.channel);
    }
  }

  lemma PhasesStayKept(w: World, s: Step, accepted: Intake, k: nat)
    requires Kept(w, accepted) && Next(w, s).Some?
    ensures PhaseKept(PhaseOf(Next(w, s).value, k), accepted)
  {
    assert PhaseKept(PhaseOf(w, k), accepted);
    if !Touches(s, k) {
      OthersKeepTheirPhase(w, s, k);
    } else if s.BuildBatch? {
      BatchesAreKept(w, PhaseOf(w, k).intake, s.batch, accepted);
    }
  }

  lemma KeptStep(w: World, s: Step, accepted: Intake)
    requires Kept(w, accepted) && Next(w, s).Some?
    ensures Kept(Next(w, s).value, accepted)
  {
    assert !s.Tick? ==> PhaseKept(PhaseOf(w, s.worker), accepted);
    forall k: nat ensures PhaseKept(PhaseOf(Next(w, s).value, k), accepted) {
      PhasesStayKept(w, s, accepted, k);
    }
  }

  /** In every interleaving, expired leases and overwritten plans included, what accept time
      promised is kept: every child goes out on a channel that was feasible then, and is
      CRITICAL exactly if the client declared it; and so is every plan that is ever stored,
      with at least one channel and no more than allowed. */
  lemma {:induction false} AcceptTimeIsKept(states: seq<World>, steps: seq<Step>, i: nat)
    requires Execution(states, steps) && i < |states|
    ensures Kept(states[i], states[0].row)
  {
    if i == 0 {
      forall k: nat ensures PhaseOf(states[0], k).Idle? {}
    } else {
      AcceptTimeIsKept(states, steps, i - 1);
      assert Next(states[i - 1], steps[i - 1]) == Some(states[i]);
      KeptStep(states[i - 1], steps[i - 1], states[0].row);
    }
  }

  // ---- Runs that do not overlap ----

  /** What the worker at work knows is what is stored; nothing is created before the end. */
  predicate InStep(w: World, p: Phase) {
    match p
    case Idle => true
    case Claimed(i) => i == w.row && i.plan.None?
    case Planned(i) => i == w.row
    case Built(i, batch) => i == w.row && i.plan.Some? && Channels(batch) == i.plan.value.channels
    case Failing(i, _) => i == w.row
  }

  ghost predicate Orderly(w: World) {
    && (forall j: nat, k: nat :: Active(w, j) && Active(w, k) ==> j == k)
    && (forall k: nat :: Active(w, k) ==> w.row.status.Processing? && InStep(w, PhaseOf(w, k)))
    && (if w.row.status.Completed? then w.row.plan.Some? && Channels(w.children) == w.row.plan.value.channels
        else w.children == [])
    && w.granted == Min(w.row.attempts, w.maxAttempts)
  }

  lemma {:induction false} NothingExistsYet(channels: seq<Channel>)
    ensures Outstanding(channels, {}) == channels
  {
    if channels == [] {
    } else {
      NothingExistsYet(channels[1..]);
    }
  }

  lemma OrderlyStep(w: World, s: Step)
    requires Sound(w) && Orderly(w) && Next(w, s).Some?
    requires s.TakeLease? ==> NobodyActive(w)
    ensures Orderly(Next(w, s).value)
  {
    var v := Next(w, s).value;
    assert !s.Tick? ==> PhaseSound(w, PhaseOf(w, s.worker));
    assert !s.Tick? && Active(w, s.worker) ==> InStep(w, PhaseOf(w, s.worker));
    forall k: nat | !Touches(s, k) ensures PhaseOf(v, k) == PhaseOf(w, k) {
      OthersKeepTheirPhase(w, s, k);
    }
    forall k: nat | Active(v, k) ensures v.row.status.Processing? && InStep(v, PhaseOf(v, k)) {
      assert s.TakeLease? && k != s.worker ==> !Active(w, k);
      assert Active(w, k) ==> InStep(w, PhaseOf(w, k));
      if s.BuildBatch? && k == s.worker {
        assert Elements(Channels([])) == {};
        NothingExistsYet(w.row.plan.value.channels);
      }
    }
    if s.SaveBatch? && v.row.status.Completed? {
      assert w.children + PhaseOf(w, s.worker).batch == PhaseOf(w, s.worker).batch;
    }
    forall j: nat, k: nat | Active(v, j) && Active(v, k) ensures j == k {
      assert s.TakeLease? ==> !Active(w, j) && !Active(w, k);
      assert !s.TakeLease? ==> Active(w, j) && Active(w, k);
    }
  }

  lemma {:induction false} OrderlyUpTo(states: seq<World>, steps: seq<Step>, i: nat)
    requires Execution(states, steps) && i < |states| && NeverOverlapping(states, steps, i)
    ensures Sound(states[i]) && Orderly(states[i]) && states[i].maxAttempts == states[0].maxAttempts
  {
    AlwaysSound(states, steps, i);
    if i == 0 {
      forall k: nat ensures PhaseOf(states[0], k).Idle? {}
    } else {
      OrderlyUpTo(states, steps, i - 1);
      assert Next(states[i - 1], steps[i - 1]) == Some(states[i]);
      OrderlyStep(states[i - 1], steps[i - 1]);
    }
  }

  /** A stored plan stays, and a finished row stays altogether. */
  lemma RowIsKept(w: World, s: Step)
    requires Sound(w) && Orderly(w) && Next(w, s).Some?
    ensures w.row.plan.Some? ==> Next(w, s).value.row.plan == w.row.plan
    ensures w.row.Finished() ==> Next(w, s).value.row == w.row
  {
  }

  /** When runs never overlap: at most `maxAttempts` claims pass the attempt gate, and
      COMPLETED means the children's channels are exactly the plan's, in its order, so there
      are no more of them than accept time allowed. */
  lemma WithoutOverlap(states: seq<World>, steps: seq<Step>, i: nat)
    requires Execution(states, steps) && i < |states| && NeverOverlapping(states, steps, i)
    ensures states[i].granted <= states[0].maxAttempts
    ensures states[i].row.status.Completed? ==>
              states[i].row.plan.Some? && Channels(states[i].children) == states[i].row.plan.value.channels
    ensures !states[i].row.status.Completed? ==> states[i].children == []
    ensures states[i].row.status.Completed? ==> 1 <= |states[i].children| <= states[0].row.constraints.maxChannels
  {
    OrderlyUpTo(states, steps, i);
    AcceptTimeIsKept(states, steps, i);
  }

  /** When runs never overlap: the plan is written once and never changes, and COMPLETED
      and FAILED are final. */
  lemma {:induction false} PlansAndEndsAreFinal(states: seq<World>, steps: seq<Step>, i: nat, j: nat)
    requires Execution(states, steps) && i <= j < |states| && NeverOverlapping(states, steps, j)
    ensures states[i].row.plan.Some? ==> states[j].row.plan == states[i].row.plan
    ensures states[i].row.Finished() ==> states[j].row == states[i].row
    decreases j
  {
    if i == j {
    } else {
      PlansAndEndsAreFinal(states, steps, i, j - 1);
      OrderlyUpTo(states, steps, j - 1);
      assert Next(states[j - 1], steps[j - 1]) == Some(states[j]);
      RowIsKept(states[j - 1], steps[j - 1]);
    }
  }

  /** A crashed worker does not strand the intake: an idle worker can take the lease exactly if
      it was never taken or has run out, and it only counts the attempt and sets the lease. */
  lemma LeasesCanBeTakenOver(w: World, k: nat)
    requires w.row.Valid()
    ensures Next(w, TakeLease(k)).Some? <==>
              && PhaseOf(w, k).Idle?
              && (w.row.status.Received?
                  || (w.row.status.Processing? && w.row.claimedAt.value + w.lease <= w.now))
    ensures Next(w, TakeLease(k)).Some? ==>
              Next(w, TakeLease(k)).value.row
              == w.row.(status := Processing, claimedAt := Some(w.now), attempts := w.row.attempts + 1)
  {
  }

  /** Runs overlap only after some worker has outlived its lease. */
  lemma {:induction false} LeasesPreventOverlap(states: seq<World>, steps: seq<Step>, i: nat)
    requires Execution(states, steps) && i < |states|
    requires forall j :: 0 <= j < i ==> WithinLease(states[j])
    ensures NeverOverlapping(states, steps, i)
  {
    if i == 0 {
    } else {
      LeasesPreventOverlap(states, steps, i - 1);
      OrderlyUpTo(states, steps, i - 1);
      var w := states[i - 1];
      assert Next(w, steps[i - 1]) == Some(states[i]);
      if steps[i - 1].TakeLease? {
        forall k: nat ensures !Active(w, k) {
          assert Active(w, k) ==> InStep(w, PhaseOf(w, k)) && w.row.status.Processing? && PhaseSound(w, PhaseOf(w, k));
        }
      }
    }
  }
}
