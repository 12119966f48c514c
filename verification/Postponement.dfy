/** Where the delivery state machine meets the policy: a postponed notification waits for
    its resume time and is then judged at exactly that instant. */
module Postponement {
  import opened Domain
  import opened NotificationEntity
  import opened DeliveryProtocol
  import P = PolicyResolver
  import PolicyVerdicts

  /** After a postponement a worker goes on with the row exactly from the resume time on,
      and whenever it does, the time rules judge the resume time, not the clock. */
  lemma RejudgedAtItsResumeTime(n: Notification, resumeAt: int, at: int, now: int, lease: int)
    requires n.Valid() && n.status in {Pending, Processing}
    ensures Rejected(n, PostponeUntil(resumeAt), at).Ok?
    ensures var p := Rejected(n, PostponeUntil(resumeAt), at).value;
            && (Consider(p, now, lease).Some? <==> resumeAt <= now)
            && (resumeAt <= now ==>
                  P.JudgedAt(Consider(p, now, lease).value.sendAt, now) == resumeAt)
  {
  }

  // ---- A notification postponed again and again ----

  /** A delivery that judges the row: the row as read, the clock reading it is considered
      at, and the one a rejection is written at. */
  datatype Round = Round(row: Notification, now: int, at: int)

  /** What the policy inspects of the notification, its recipient and its project. */
  function ContextOf(n: Notification, recipient: P.Recipient, constraint: Option<P.DeliveryConstraint>): P.Context {
    P.Context(n.channel, n.category, n.topicId, recipient, constraint)
  }

  /** A row that is due is judged at its send time, which has come, or else at the present;
      and whether it is delivered, postponed or suppressed follows from its own category,
      channel and topic, and from its recipient and project at that instant. */
  lemma DueRowsAreJudged(row: Notification, recipient: P.Recipient, constraint: Option<P.DeliveryConstraint>, now: int,
      lease: int)
    requires row.Valid() && DueForDelivery(row, now, lease)
    ensures Consider(row, now, lease).Some?
    ensures var n := Consider(row, now, lease).value;
            var t := if row.sendAt.Some? then row.sendAt.value else now;
            && t <= now && P.JudgedAt(n.sendAt, now) == t
            && PolicyVerdicts.Fits(P.Resolve(P.DISPATCH_GUARD_RULES, ContextOf(n, recipient, constraint), t),
                                   P.DISPATCH_GUARD_RULES,
                                   P.Context(row.channel, row.category, row.topicId, recipient, constraint), t)
  {
    TakenUpExactlyWhenDue(row, now, lease);
    var t := if row.sendAt.Some? then row.sendAt.value else now;
    PolicyVerdicts.ShippedVerdicts(P.DISPATCH_GUARD_RULES,
        P.Context(row.channel, row.category, row.topicId, recipient, constraint), t);
  }

  /** The instant the time rules judge in this round. */
  function Judged(r: Round, lease: int): int {
    match Consider(r.row, r.now, lease)
    case Some(n) => P.JudgedAt(n.sendAt, r.now)
    case None => r.now
  }

  /** The first round takes up the row and postpones it, and the second one reads the result. */
  predicate PostponedTo(rules: seq<P.Rule>, ctx: P.Context, lease: int, r: Round, next: Round) {
    && Consider(r.row, r.now, lease).Some?
    && var d := P.Resolve(rules, ctx, Judged(r, lease));
       d.Postpone? && Rejected(Consider(r.row, r.now, lease).value, PostponeUntil(d.resumeAt), r.at) == Ok(next.row)
  }

  /** Rounds on one notification: each but the last ends in a postponement, and the last
      one takes up the row again. */
  ghost predicate Rounds(rules: seq<P.Rule>, ctx: P.Context, lease: int, rounds: seq<Round>) {
    && rounds != []
    && rounds[0].row.Valid()
    && Consider(rounds[|rounds| - 1].row, rounds[|rounds| - 1].now, lease).Some?
    && forall i :: 0 <= i < |rounds| - 1 ==> PostponedTo(rules, ctx, lease, rounds[i], rounds[i + 1])
  }

  function Instants(rounds: seq<Round>, lease: int): seq<int> {
    seq(|rounds|, i requires 0 <= i < |rounds| => Judged(rounds[i], lease))
  }

  /** Nothing of what the policy inspects changes from round to round. */
  lemma {:induction false} RoundsKeepTheNotification(rules: seq<P.Rule>, ctx: P.Context, lease: int,
      rounds: seq<Round>, i: nat)
    requires Rounds(rules, ctx, lease, rounds) && i < |rounds|
    ensures rounds[i].row.Valid() && Identity(rounds[i].row) == Identity(rounds[0].row)
  {
    if i == 0 {
    } else {
      RoundsKeepTheNotification(rules, ctx, lease, rounds, i - 1);
      assert PostponedTo(rules, ctx, lease, rounds[i - 1], rounds[i]);
    }
  }

  /** A round after a postponement judges the very instant the row was postponed to. */
  lemma NextRoundJudgesTheResumeTime(rules: seq<P.Rule>, ctx: P.Context, lease: int, r: Round, next: Round)
    requires r.row.Valid() && PostponedTo(rules, ctx, lease, r, next) && Consider(next.row, next.now, lease).Some?
    ensures P.Resolve(rules, ctx, Judged(r, lease)) == P.Postpone(Judged(next, lease))
  {
    var n := Consider(r.row, r.now, lease).value;
    RejudgedAtItsResumeTime(n, P.Resolve(rules, ctx, Judged(r, lease)).resumeAt, r.at, next.now, lease);
  }

  lemma RoundsAreATrail(rules: seq<P.Rule>, ctx: P.Context, lease: int, rounds: seq<Round>)
    requires Rounds(rules, ctx, lease, rounds)
    ensures P.Trail(rules, ctx, Instants(rounds, lease))
  {
    var ts := Instants(rounds, lease);
    forall i | 0 <= i < |ts| - 1 ensures P.Postponed(rules, ctx, ts, i) {
      RoundsKeepTheNotification(rules, ctx, lease, rounds, i);
      assert PostponedTo(rules, ctx, lease, rounds[i], rounds[i + 1]);
      if i + 1 < |rounds| - 1 {
        assert PostponedTo(rules, ctx, lease, rounds[i + 1], rounds[i + 2]);
      }
      NextRoundJudgesTheResumeTime(rules, ctx, lease, rounds[i], rounds[i + 1]);
    }
  }

  /** A notification whose deliveries are postponed again and again is judged at strictly
      later instants, and it is let through after at most as many postponements as the
      chain has windows for its channel, or never. */
  lemma DeliveredSoonOrNever(rules: seq<P.Rule>, recipient: P.Recipient,
                             constraint: Option<P.DeliveryConstraint>, lease: int, rounds: seq<Round>)
    requires rounds != []
    requires ContextOf(rounds[0].row, recipient, constraint).Valid()
    requires Rounds(rules, ContextOf(rounds[0].row, recipient, constraint), lease, rounds)
    ensures var ctx := ContextOf(rounds[0].row, recipient, constraint);
            && (forall i :: 0 <= i < |rounds| ==> ContextOf(rounds[i].row, recipient, constraint) == ctx)
            && (forall i, j :: 0 <= i < j < |rounds| ==> Judged(rounds[i], lease) < Judged(rounds[j], lease))
            && (P.Resolve(rules, ctx, Judged(rounds[|rounds| - 1], lease)).Allow?
                ==> |rounds| - 1 <= |P.ChainWindows(rules, ctx)|)
  {
    var ctx := ContextOf(rounds[0].row, recipient, constraint);
    var ts := Instants(rounds, lease);
    RoundsAreATrail(rules, ctx, lease, rounds);
    forall i | 0 <= i < |rounds| ensures ContextOf(rounds[i].row, recipient, constraint) == ctx {
      RoundsKeepTheNotification(rules, ctx, lease, rounds, i);
    }
    forall i, j | 0 <= i < j < |rounds| ensures Judged(rounds[i], lease) < Judged(rounds[j], lease) {
      assert ts[i] == Judged(rounds[i], lease) && ts[j] == Judged(rounds[j], lease);
      P.TrailsIncrease(rules, ctx, ts, i, j);
    }
    if P.Resolve(rules, ctx, ts[|ts| - 1]).Allow? {
      P.AllowedSoonOrNever(rules, ctx, ts);
    }
  }
}
