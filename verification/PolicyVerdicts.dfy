/** What the two shipped chains decide, in terms of the notification's recipient and project. */
module PolicyVerdicts {
  import opened Domain
  import opened QuietHours
  import opened PolicyResolver

  /** The recipient has an address for the channel. */
  predicate Addressed(ctx: Context) {
    ctx.channel in ctx.recipient.addresses && ctx.recipient.addresses[ctx.channel] != ""
  }

  /** The recipient wants this category, this channel and this topic. */
  predicate Consented(ctx: Context) {
    var p := ctx.recipient.preferences;
    && ctx.category !in p.unsubscribedCategories
    && ctx.channel !in p.optedOutChannels
    && (ctx.topic.Some? ==> ctx.topic.value !in p.unsubscribedTopics)
  }

  predicate PersonalBlackout(ctx: Context, t: int) {
    var b := ctx.recipient.preferences.blackout;
    b.Some? && b.value.start <= t <= b.value.end
  }

  predicate ProjectBlackout(ctx: Context, t: int) {
    ctx.constraint.Some? && exists b :: b in ctx.constraint.value.blackouts && b.start <= t <= b.end
  }

  /** A window of the channel is on, on the clock with that offset. */
  predicate IsOn(w: Window, channel: Channel, t: int, offset: int) {
    w.channel == channel && Covers(w, TimeOfDay(t, offset))
  }

  predicate PersonallyQuiet(ctx: Context, t: int) {
    var w := ctx.recipient.preferences.quietHours;
    w.Some? && IsOn(w.value, ctx.channel, t, ctx.recipient.offset)
  }

  predicate ProjectQuiet(ctx: Context, t: int) {
    ctx.constraint.Some?
    && exists w :: w in ctx.constraint.value.quietHours && IsOn(w, ctx.channel, t, ctx.constraint.value.offset)
  }

  /** Five minutes after the next end of the window. */
  predicate ResumesAfter(resumeAt: int, w: Window, t: int, offset: int) {
    resumeAt == NextWindowEnd(w, t, offset) + 5 * 60 * SECOND
  }

  /** The k-th window is the first of the list that is on. */
  predicate FirstOn(windows: seq<Window>, k: int, channel: Channel, t: int, offset: int) {
    && 0 <= k < |windows| && IsOn(windows[k], channel, t, offset)
    && forall j :: 0 <= j < k ==> !IsOn(windows[j], channel, t, offset)
  }

  /** A list of windows either lets pass, when none is on, or postpones to the end of the
      first that is. */
  lemma {:induction false} QuietVerdict(windows: seq<Window>, channel: Channel, offset: int, t: int)
    ensures match QuietDecision(windows, channel, offset, t)
            case Allow => forall w :: w in windows ==> !IsOn(w, channel, t, offset)
            case Suppress => false
            case Postpone(at) =>
              exists k :: FirstOn(windows, k, channel, t, offset) && ResumesAfter(at, windows[k], t, offset)
  {
    if windows == [] {
    } else {
      assert windows == [windows[0]] + windows[1..];
      if IsOn(windows[0], channel, t, offset) {
        assert FirstOn(windows, 0, channel, t, offset);
      } else {
        QuietVerdict(windows[1..], channel, offset, t);
        var d := QuietDecision(windows[1..], channel, offset, t);
        if d.Postpone? {
          var k :| FirstOn(windows[1..], k, channel, t, offset)
                   && ResumesAfter(d.resumeAt, windows[1..][k], t, offset);
          assert windows[k + 1] == windows[1..][k];
          assert FirstOn(windows, k + 1, channel, t, offset);
        }
      }
    }
  }

  lemma ChainsUnfold(ctx: Context, t: int)
    ensures FirstRejection(INTAKE_RULES, ctx, t)
            == if Evaluate(AddressRule, ctx, t) != Allow then Evaluate(AddressRule, ctx, t)
               else FirstRejection(DISPATCH_GUARD_RULES, ctx, t)
    ensures FirstRejection(DISPATCH_GUARD_RULES, ctx, t)
            == if Evaluate(PreferenceRule, ctx, t) != Allow then Evaluate(PreferenceRule, ctx, t)
               else if Evaluate(BlackoutRule, ctx, t) != Allow then Evaluate(BlackoutRule, ctx, t)
               else Evaluate(QuietHoursRule, ctx, t)
  {
    assert INTAKE_RULES[1..] == DISPATCH_GUARD_RULES;
    var rest := DISPATCH_GUARD_RULES[1..];
    assert rest == [BlackoutRule, QuietHoursRule] && rest[1..] == [QuietHoursRule];
    assert FirstRejection([QuietHoursRule], ctx, t) == Evaluate(QuietHoursRule, ctx, t);
    assert FirstRejection(rest, ctx, t)
        == if Evaluate(BlackoutRule, ctx, t) != Allow then Evaluate(BlackoutRule, ctx, t)
           else Evaluate(QuietHoursRule, ctx, t);
  }

  predicate Shipped(rules: seq<Rule>) {
    rules == INTAKE_RULES || rules == DISPATCH_GUARD_RULES
  }

  /** What nothing can make up for: no address (which the dispatch chain does not ask for), no
      consent, or a personal blackout. */
  predicate Barred(rules: seq<Rule>, ctx: Context, t: int) {
    (rules == INTAKE_RULES && !Addressed(ctx)) || !Consented(ctx) || PersonalBlackout(ctx, t)
  }

  /** CRITICAL always passes.  Anything else passes exactly if it is not barred and no
      blackout of the project and no window is on; it is suppressed exactly if it is barred,
      or a blackout of the project is on while the recipient is not quiet; and otherwise it is
      postponed: past the recipient's window if that is on, and else past the first window of
      the project that is.  The cases exclude each other, so each holds if and only if. */
  predicate Fits(d: Decision, rules: seq<Rule>, ctx: Context, t: int) {
    if ctx.category.Critical? then d.Allow? else
    match d
    case Allow =>
      !Barred(rules, ctx, t) && !ProjectBlackout(ctx, t) && !PersonallyQuiet(ctx, t) && !ProjectQuiet(ctx, t)
    case Suppress => Barred(rules, ctx, t) || (ProjectBlackout(ctx, t) && !PersonallyQuiet(ctx, t))
    case Postpone(at) =>
      && !Barred(rules, ctx, t)
      && if PersonallyQuiet(ctx, t)
         then ResumesAfter(at, ctx.recipient.preferences.quietHours.value, t, ctx.recipient.offset)
         else
           && !ProjectBlackout(ctx, t) && ProjectQuiet(ctx, t)
           && ResumesAfterFirst(at, ctx.constraint.value, ctx.channel, t)
  }

  predicate ResumesAfterFirst(resumeAt: int, c: DeliveryConstraint, channel: Channel, t: int) {
    exists k :: 0 <= k < |c.quietHours| && FirstOn(c.quietHours, k, channel, t, c.offset)
                && ResumesAfter(resumeAt, c.quietHours[k], t, c.offset)
  }

  /** The two shipped chains decide just so. */
  lemma ShippedVerdicts(rules: seq<Rule>, ctx: Context, t: int)
    requires Shipped(rules)
    ensures Fits(Resolve(rules, ctx, t), rules, ctx, t)
  {
    ChainsUnfold(ctx, t);
    PersonalVerdict(ctx, t);
    ProjectVerdict(ctx, t);
  }

  /** Only one decision fits. */
  lemma OneDecisionFits(d: Decision, e: Decision, rules: seq<Rule>, ctx: Context, t: int)
    requires Fits(d, rules, ctx, t) && Fits(e, rules, ctx, t)
    ensures d == e
  {
  }

  lemma PersonalVerdict(ctx: Context, t: int)
    ensures match Evaluate(PreferenceRule, ctx, t)
            case Allow => Consented(ctx) && !PersonalBlackout(ctx, t) && !PersonallyQuiet(ctx, t)
            case Suppress => !Consented(ctx) || PersonalBlackout(ctx, t)
            case Postpone(at) =>
              && Consented(ctx) && !PersonalBlackout(ctx, t) && PersonallyQuiet(ctx, t)
              && ResumesAfter(at, ctx.recipient.preferences.quietHours.value, t, ctx.recipient.offset)
  {
    QuietVerdict(Optional(ctx.recipient.preferences.quietHours), ctx.channel, ctx.recipient.offset, t);
  }

  lemma ProjectVerdict(ctx: Context, t: int)
    ensures Evaluate(BlackoutRule, ctx, t) == if ProjectBlackout(ctx, t) then Suppress else Allow
    ensures match Evaluate(QuietHoursRule, ctx, t)
            case Allow => !ProjectQuiet(ctx, t)
            case Suppress => false
            case Postpone(at) => ProjectQuiet(ctx, t) && ResumesAfterFirst(at, ctx.constraint.value, ctx.channel, t)
  {
    if ctx.constraint.Some? {
      var c := ctx.constraint.value;
      QuietVerdict(c.quietHours, ctx.channel, c.offset, t);
      var d := QuietDecision(c.quietHours, ctx.channel, c.offset, t);
      if d.Postpone? {
        var k :| FirstOn(c.quietHours, k, ctx.channel, t, c.offset)
                 && ResumesAfter(d.resumeAt, c.quietHours[k], t, c.offset);
        assert c.quietHours[k] in c.quietHours;
      }
    }
  }
}
