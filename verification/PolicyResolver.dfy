/** The rule chain that allows, suppresses or postpones a notification, and what happens
    when a postponed notification is judged again at its own resume time. */
module PolicyResolver {
  import opened Domain
  import opened QuietHours

  /** An absolute range of instants, both ends inclusive. */
  datatype Blackout = Blackout(start: int, end: int)

  datatype Preferences = Preferences(
    optedOutChannels: set<Channel>,
    unsubscribedCategories: set<Category>,
    unsubscribedTopics: set<nat>,
    blackout: Option<Blackout>,
    quietHours: Option<Window>)

  /** Zones are fixed offsets from UTC. */
  datatype Recipient = Recipient(addresses: map<Channel, string>, preferences: Preferences, offset: int)

  datatype DeliveryConstraint = DeliveryConstraint(quietHours: seq<Window>, blackouts: seq<Blackout>, offset: int)

  /** What the rules inspect, apart from the instant they judge. */
  datatype Context = Context(
    channel: Channel,
    category: Category,
    topic: Option<nat>,
    recipient: Recipient,
    constraint: Option<DeliveryConstraint>)
  {
    predicate Valid() {
      && (recipient.preferences.quietHours.Some? ==> recipient.preferences.quietHours.value.Valid())
      && (constraint.Some? ==> forall w :: w in constraint.value.quietHours ==> w.Valid())
    }
  }

  datatype Rule = AddressRule | PreferenceRule | BlackoutRule | QuietHoursRule

  const INTAKE_RULES: seq<Rule> := [AddressRule, PreferenceRule, BlackoutRule, QuietHoursRule]
  const DISPATCH_GUARD_RULES: seq<Rule> := [PreferenceRule, BlackoutRule, QuietHoursRule]

  datatype Decision = Allow | Suppress | Postpone(resumeAt: int)

  /** The instant the time rules judge: the send time when there is one, else now. */
  function JudgedAt(sendAt: Option<int>, now: int): int {
    if sendAt.Some? then sendAt.value else now
  }

  predicate Silences(b: Blackout, t: int) {
    b.start <= t <= b.end
  }

  /** The first window, in order, that applies to the channel and covers the instant. */
  function QuietDecision(windows: seq<Window>, channel: Channel, offset: int, t: int): Decision {
    if windows == [] then Allow
    else if windows[0].channel == channel && Covers(windows[0], TimeOfDay(t, offset))
    then Postpone(ResumeAt(windows[0], t, offset))
    else QuietDecision(windows[1..], channel, offset, t)
  }

  function Optional<T>(o: Option<T>): seq<T> {
    if o.Some? then [o.value] else []
  }

  function Evaluate(rule: Rule, ctx: Context, t: int): Decision {
    var p := ctx.recipient.preferences;
    match rule
    case AddressRule =>
      if ctx.channel in ctx.recipient.addresses && ctx.recipient.addresses[ctx.channel] != "" then Allow else Suppress
    case PreferenceRule =>
      if ctx.category in p.unsubscribedCategories then Suppress
      else if ctx.channel in p.optedOutChannels then Suppress
      else if ctx.topic.Some? && ctx.topic.value in p.unsubscribedTopics then Suppress
      else if p.blackout.Some? && Silences(p.blackout.value, t) then Suppress
      else QuietDecision(Optional(p.quietHours), ctx.channel, ctx.recipient.offset, t)
    case BlackoutRule =>
      if ctx.constraint.Some? && exists b :: b in ctx.constraint.value.blackouts && Silences(b, t)
      then Suppress else Allow
    case QuietHoursRule =>
      if ctx.constraint.None? then Allow
      else QuietDecision(ctx.constraint.value.quietHours, ctx.channel, ctx.constraint.value.offset, t)
  }

  /** Rules run in order and the first rejection is the decision. */
  function FirstRejection(rules: seq<Rule>, ctx: Context, t: int): Decision {
    if rules == [] then Allow
    else if Evaluate(rules[0], ctx, t) != Allow then Evaluate(rules[0], ctx, t)
    else FirstRejection(rules[1..], ctx, t)
  }

  /** Critical notifications bypass the whole chain. */
  function Resolve(rules: seq<Rule>, ctx: Context, t: int): Decision {
    if ctx.category.Critical? then Allow else FirstRejection(rules, ctx, t)
  }

  // ---- The windows a chain consults, in order, each with the clock it is read on ----

  datatype ZonedWindow = ZonedWindow(window: Window, offset: int)

  function Zoned(windows: seq<Window>, channel: Channel, offset: int): seq<ZonedWindow> {
    if windows == [] then []
    else (if windows[0].channel == channel then [ZonedWindow(windows[0], offset)] else [])
         + Zoned(windows[1..], channel, offset)
  }

  function RuleWindows(rule: Rule, ctx: Context): seq<ZonedWindow> {
    match rule
    case PreferenceRule => Zoned(Optional(ctx.recipient.preferences.quietHours), ctx.channel, ctx.recipient.offset)
    case QuietHoursRule =>
      if ctx.constraint.None? then []
      else Zoned(ctx.constraint.value.quietHours, ctx.channel, ctx.constraint.value.offset)
    case _ => []
  }

  function ChainWindows(rules: seq<Rule>, ctx: Context): seq<ZonedWindow> {
    if rules == [] then [] else RuleWindows(rules[0], ctx) + ChainWindows(rules[1..], ctx)
  }

  predicate Hit(z: ZonedWindow, t: int) {
    Covers(z.window, TimeOfDay(t, z.offset))
  }

  /** Index of the first window covering the instant, or the number of windows. */
  function FirstHit(zs: seq<ZonedWindow>, t: int): (k: nat)
    ensures k <= |zs|
    ensures k < |zs| ==> Hit(zs[k], t)
    ensures forall i :: 0 <= i < k ==> !Hit(zs[i], t)
  {
    if zs == [] then 0
    else if Hit(zs[0], t) then 0
    else 1 + FirstHit(zs[1..], t)
  }

  lemma {:induction false} FirstHitConcatenation(a: seq<ZonedWindow>, b: seq<ZonedWindow>, t: int)
    ensures FirstHit(a + b, t) == if FirstHit(a, t) < |a| then FirstHit(a, t) else |a| + FirstHit(b, t)
  {
    if a == [] {
      assert [] + b == b;
    } else {
      assert (a + b)[1..] == a[1..] + b;
      FirstHitConcatenation(a[1..], b, t);
    }
  }

  /** What a decision says about a list of windows: it lets through only when none covers
      the instant, and it postpones to the end of the first one that does. */
  predicate Reflects(d: Decision, zs: seq<ZonedWindow>, t: int) {
    var k := FirstHit(zs, t);
    && (d.Allow? ==> k == |zs|)
    && (d.Postpone? ==> k < |zs| && d.resumeAt == ResumeAt(zs[k].window, t, zs[k].offset))
  }

  lemma {:induction false} QuietDecisionReflects(windows: seq<Window>, channel: Channel, offset: int, t: int)
    ensures Reflects(QuietDecision(windows, channel, offset, t), Zoned(windows, channel, offset), t)
    ensures !QuietDecision(windows, channel, offset, t).Suppress?
  {
    if windows == [] {
    } else {
      QuietDecisionReflects(windows[1..], channel, offset, t);
      var head := if windows[0].channel == channel then [ZonedWindow(windows[0], offset)] else [];
      FirstHitConcatenation(head, Zoned(windows[1..], channel, offset), t);
    }
  }

  lemma RuleReflects(rule: Rule, ctx: Context, t: int)
    ensures Reflects(Evaluate(rule, ctx, t), RuleWindows(rule, ctx), t)
  {
    match rule {
      case PreferenceRule =>
        QuietDecisionReflects(Optional(ctx.recipient.preferences.quietHours), ctx.channel, ctx.recipient.offset, t);
      case QuietHoursRule =>
        if ctx.constraint.Some? {
          QuietDecisionReflects(ctx.constraint.value.quietHours, ctx.channel, ctx.constraint.value.offset, t);
        }
      case _ =>
    }
  }

  lemma {:induction false} ChainReflects(rules: seq<Rule>, ctx: Context, t: int)
    ensures Reflects(FirstRejection(rules, ctx, t), ChainWindows(rules, ctx), t)
  {
    if rules == [] {
    } else {
      RuleReflects(rules[0], ctx, t);
      ChainReflects(rules[1..], ctx, t);
      FirstHitConcatenation(RuleWindows(rules[0], ctx), ChainWindows(rules[1..], ctx), t);
    }
  }

  lemma {:induction false} ZonedWindowsAreValid(windows: seq<Window>, channel: Channel, offset: int)
    requires forall w :: w in windows ==> w.Valid()
    ensures forall z :: z in Zoned(windows, channel, offset) ==>
          z.window.Valid() && z.window.channel == channel && z.window in windows
  {
    if windows == [] {
    } else {
      ZonedWindowsAreValid(windows[1..], channel, offset);
    }
  }

  lemma {:induction false} ChainWindowsAreValid(rules: seq<Rule>, ctx: Context)
    requires ctx.Valid()
    ensures forall z :: z in ChainWindows(rules, ctx) ==> z.window.Valid()
  {
    if rules == [] {
    } else {
      ChainWindowsAreValid(rules[1..], ctx);
      ZonedWindowsAreValid(Optional(ctx.recipient.preferences.quietHours), ctx.channel, ctx.recipient.offset);
      if ctx.constraint.Some? {
        ZonedWindowsAreValid(ctx.constraint.value.quietHours, ctx.channel, ctx.constraint.value.offset);
      }
    }
  }

  /** The verdict of a quiet-hours list does not depend on the order of its windows: it
      rejects exactly when some window of the channel covers the instant. */
  lemma {:induction false} QuietVerdictIgnoresOrder(windows: seq<Window>, channel: Channel, offset: int, t: int)
    ensures QuietDecision(windows, channel, offset, t) != Allow <==>
              exists w :: w in windows && w.channel == channel && Covers(w, TimeOfDay(t, offset))
  {
    if windows == [] {
    } else {
      QuietVerdictIgnoresOrder(windows[1..], channel, offset, t);
      assert forall w :: w in windows <==> w == windows[0] || w in windows[1..];
    }
  }

  // ---- Judging again and again at the resume time ----

  /** Successive instants at which the notification is judged: each but the last is
      rejected with a postponement to the next. */
  ghost predicate Trail(rules: seq<Rule>, ctx: Context, ts: seq<int>) {
    ts != [] && forall i :: 0 <= i < |ts| - 1 ==> Postponed(rules, ctx, ts, i)
  }

  predicate Postponed(rules: seq<Rule>, ctx: Context, ts: seq<int>, i: int)
    requires 0 <= i < |ts| - 1
  {
    Resolve(rules, ctx, ts[i]) == Postpone(ts[i + 1])
  }

  ghost predicate AllValid(zs: seq<ZonedWindow>) {
    forall z :: z in zs ==> z.window.Valid()
  }

  /** The i-th judgement hits some window, and the first one hit resumes at the next. */
  predicate Resumes(zs: seq<ZonedWindow>, ts: seq<int>, i: int)
    requires 0 <= i < |ts| - 1
  {
    var k := FirstHit(zs, ts[i]);
    k < |zs| && ts[i + 1] == ResumeAt(zs[k].window, ts[i], zs[k].offset)
  }

  /** A trail in terms of windows alone. */
  ghost predicate WindowTrail(zs: seq<ZonedWindow>, ts: seq<int>) {
    forall i :: 0 <= i < |ts| - 1 ==> Resumes(zs, ts, i)
  }

  lemma TrailsFollowWindows(rules: seq<Rule>, ctx: Context, ts: seq<int>)
    requires ctx.Valid() && Trail(rules, ctx, ts)
    ensures AllValid(ChainWindows(rules, ctx)) && WindowTrail(ChainWindows(rules, ctx), ts)
  {
    ChainWindowsAreValid(rules, ctx);
    forall i | 0 <= i < |ts| - 1 ensures Resumes(ChainWindows(rules, ctx), ts, i) {
      assert Postponed(rules, ctx, ts, i);
      ChainReflects(rules, ctx, ts[i]);
    }
  }

  /** Each postponement moves to a strictly later instant. */
  lemma {:induction false} TrailsIncrease(rules: seq<Rule>, ctx: Context, ts: seq<int>, i: nat, j: nat)
    requires ctx.Valid() && Trail(rules, ctx, ts) && i < j < |ts|
    ensures ts[i] < ts[j]
    decreases j
  {
    TrailsFollowWindows(rules, ctx, ts);
    var zs := ChainWindows(rules, ctx);
    assert Resumes(zs, ts, j - 1);
    var z := zs[FirstHit(zs, ts[j - 1])];
    ResumeTimeOfDay(z.window, ts[j - 1], z.offset);
    if i == j - 1 {
    } else {
      TrailsIncrease(rules, ctx, ts, i, j - 1);
    }
  }

  /** Instants a whole number of days apart hit the same window first. */
  lemma {:induction false} FirstHitIsDaily(zs: seq<ZonedWindow>, s: int, t: int)
    requires s % DAY == t % DAY
    ensures FirstHit(zs, s) == FirstHit(zs, t)
  {
    if zs == [] {
    } else {
      assert TimeOfDay(s, zs[0].offset) == TimeOfDay(t, zs[0].offset);
      FirstHitIsDaily(zs[1..], s, t);
    }
  }

  /** Resuming from the same window leads to the same time of day. */
  lemma ResumesAlike(z: ZonedWindow, s: int, t: int)
    requires z.window.Valid()
    ensures ResumeAt(z.window, s, z.offset) % DAY == ResumeAt(z.window, t, z.offset) % DAY
  {
    ResumeTimeOfDay(z.window, s, z.offset);
    ResumeTimeOfDay(z.window, t, z.offset);
  }

  /** Once two judgements hit the same window, the trail repeats from there on. */
  lemma {:induction false} TrailsRepeat(zs: seq<ZonedWindow>, ts: seq<int>, a: nat, b: nat, d: nat)
    requires AllValid(zs) && WindowTrail(zs, ts) && a < b && b + 1 + d < |ts|
    requires FirstHit(zs, ts[a]) == FirstHit(zs, ts[b])
    ensures ts[a + 1 + d] % DAY == ts[b + 1 + d] % DAY
    decreases d
  {
    if d == 0 {
    } else {
      TrailsRepeat(zs, ts, a, b, d - 1);
      FirstHitIsDaily(zs, ts[a + d], ts[b + d]);
    }
    assert Resumes(zs, ts, a + d) && Resumes(zs, ts, b + d);
    ResumesAlike(zs[FirstHit(zs, ts[a + d])], ts[a + d], ts[b + d]);
  }

  function Hits(zs: seq<ZonedWindow>, ts: seq<int>): (hits: seq<nat>)
    ensures |hits| == |ts| && forall i :: 0 <= i < |ts| ==> hits[i] == FirstHit(zs, ts[i])
  {
    if ts == [] then [] else [FirstHit(zs, ts[0])] + Hits(zs, ts[1..])
  }

  /** Two of the postponements of a long trail hit the same window. */
  lemma RepeatedHit(zs: seq<ZonedWindow>, ts: seq<int>) returns (a: nat, b: nat)
    requires WindowTrail(zs, ts) && |ts| - 1 > |zs|
    ensures a < b < |ts| - 1 && FirstHit(zs, ts[a]) == FirstHit(zs, ts[b])
  {
    var hits := Hits(zs, ts)[..|ts| - 1];
    forall i | 0 <= i < |hits| ensures hits[i] < |zs| {
      assert Resumes(zs, ts, i);
    }
    a, b := Pigeonhole(hits, |zs|);
  }

  /** After a repetition, the end of the trail hits the same window as some postponement. */
  lemma EndRepeats(zs: seq<ZonedWindow>, ts: seq<int>, a: nat, b: nat) returns (c: nat)
    requires AllValid(zs) && WindowTrail(zs, ts) && a < b < |ts| - 1
    requires FirstHit(zs, ts[a]) == FirstHit(zs, ts[b])
    ensures c < |ts| - 1 && FirstHit(zs, ts[|ts| - 1]) == FirstHit(zs, ts[c])
  {
    c := |ts| - 1 - (b - a);
    TrailsRepeat(zs, ts, a, b, |ts| - 2 - b);
    FirstHitIsDaily(zs, ts[c], ts[|ts| - 1]);
  }

  /** A trail longer than the list of windows still hits one at its end. */
  lemma LongTrailsNeverEnd(zs: seq<ZonedWindow>, ts: seq<int>)
    requires AllValid(zs) && WindowTrail(zs, ts) && |ts| - 1 > |zs|
    ensures FirstHit(zs, ts[|ts| - 1]) < |zs|
  {
    var a, b := RepeatedHit(zs, ts);
    var c := EndRepeats(zs, ts, a, b);
    assert Resumes(zs, ts, c);
  }

  /** Judged again at its own resume time, a notification is let through within as many
      postponements as the chain has windows for its channel, or never: a trail that ends
      in an Allow is no longer than that. */
  lemma AllowedSoonOrNever(rules: seq<Rule>, ctx: Context, ts: seq<int>)
    requires ctx.Valid() && Trail(rules, ctx, ts)
    requires Resolve(rules, ctx, ts[|ts| - 1]).Allow?
    ensures |ts| - 1 <= |ChainWindows(rules, ctx)|
  {
    if |ts| - 1 > |ChainWindows(rules, ctx)| {
      assert Postponed(rules, ctx, ts, 0);
      TrailsFollowWindows(rules, ctx, ts);
      LongTrailsNeverEnd(ChainWindows(rules, ctx), ts);
      ChainReflects(rules, ctx, ts[|ts| - 1]);
    }
  }

  /** With a single window, being postponed once means either being let through at the
      resume time or never: never exactly when the gap is within the grace. */
  lemma SingleWindow(w: Window, channel: Channel, offset: int, t: int)
    requires w.Valid()
    requires QuietDecision([w], channel, offset, t).Postpone?
    ensures QuietDecision([w], channel, offset, QuietDecision([w], channel, offset, t).resumeAt) == Allow
            <==> w.Gap() > GRACE - w.end % SECOND
  {
    ResumesOutsideItsWindow(w, t, offset);
    assert [w][1..] == [];
  }

  /** Both chains that are shipped consult the same windows, in the same order: the
      recipient's one and those of the project, so that is how often either can postpone. */
  lemma ShippedChainsShareTheirWindows(ctx: Context)
    ensures ChainWindows(INTAKE_RULES, ctx) == ChainWindows(DISPATCH_GUARD_RULES, ctx)
    ensures |ChainWindows(INTAKE_RULES, ctx)|
            <= 1 + if ctx.constraint.Some? then |ctx.constraint.value.quietHours| else 0
  {
    assert INTAKE_RULES[1..] == DISPATCH_GUARD_RULES;
    var personal := RuleWindows(PreferenceRule, ctx);
    var project := RuleWindows(QuietHoursRule, ctx);
    assert DISPATCH_GUARD_RULES[1..] == [BlackoutRule, QuietHoursRule]
          && [BlackoutRule, QuietHoursRule][1..] == [QuietHoursRule];
    assert ChainWindows([QuietHoursRule], ctx) == project;
    assert ChainWindows([BlackoutRule, QuietHoursRule], ctx) == project;
    ZonedIsShorter(Optional(ctx.recipient.preferences.quietHours), ctx.channel, ctx.recipient.offset);
    if ctx.constraint.Some? {
      ZonedIsShorter(ctx.constraint.value.quietHours, ctx.channel, ctx.constraint.value.offset);
    }
  }

  lemma {:induction false} ZonedIsShorter(windows: seq<Window>, channel: Channel, offset: int)
    ensures |Zoned(windows, channel, offset)| <= |windows|
  {
    if windows == [] {
    } else {
      ZonedIsShorter(windows[1..], channel, offset);
    }
  }
}
