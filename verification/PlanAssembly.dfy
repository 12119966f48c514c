/** Turning an accepted request and whatever a decision model suggests into a plan. */
module PlanAssembly {
  import opened Domain
  import opened TemplateRendering
  import opened DecisionConstraints

  datatype Topic = Topic(id: nat, slug: string, category: Category)

  datatype Payload = Payload(
    category: Option<Category>,
    topic: Option<Topic>,
    channels: Option<seq<Channel>>,
    adhocChannels: Option<set<Channel>>,
    templateId: Option<nat>,
    variables: Option<Variables>,
    content: Option<Content>,
    sendAt: Option<Timestamp>)
  {
    /** The category the client has effectively declared. */
    function DeclaredCategory(): Option<Category> {
      if category.Some? then category else if topic.Some? then Some(topic.value.category) else None
    }

    predicate Valid() {
      && !(channels.Some? && adhocChannels.Some?)
      && (channels.Some? ==> channels.value != [])
      && (adhocChannels.Some? ==> adhocChannels.value != {})
      && (templateId.None? ==> content.Some? && variables.None?)
      && (category.Some? && topic.Some? ==> category.value == topic.value.category)
      && (sendAt.Some? ==> sendAt.value.aware && DeclaredCategory() != Some(Critical))
    }
  }

  /** An instant, with or without a time zone attached. */
  datatype Timestamp = Timestamp(aware: bool, at: int)

  /** Raw model output; nothing about it is trusted. */
  datatype Suggestion = Suggestion(
    category: Option<Category>,
    topicSlug: Option<string>,
    channels: seq<Channel>,
    sendAt: map<Channel, Timestamp>,
    modelVersion: Option<string>)

  const NO_OPINION: Suggestion := Suggestion(None, None, [], map[], None)

  datatype Source = FromClient | FromModel | FromAddresses | FromDefault

  datatype Plan = Plan(
    category: Category,
    categorySource: Source,
    topic: Option<Topic>,
    topicSource: Option<Source>,
    channels: seq<Channel>,
    channelSource: Source,
    sendAt: map<Channel, Timestamp>,
    modelVersion: Option<string>)
  {
    predicate Valid() {
      && channels != []
      && Distinct(channels)
      && sendAt.Keys <= Elements(channels)
      && forall ch :: ch in sendAt ==> sendAt[ch].aware
    }
  }

  datatype PlanError = NoClientChannels | NoAdhocChannels | InvalidPlan

  // ---- What is asked of the model ----

  datatype Want = WantCategory | WantTopic | WantChannels | WantSendTime

  function Wanted(p: Payload, c: Constraints): set<Want> {
    (if p.category.None? then {WantCategory} else {})
    + (if c.mode.ByModel? then {WantChannels} else {})
    + (if p.category != Some(Critical) && p.topic.None? then {WantTopic} else {})
    + (if p.category != Some(Critical) && p.sendAt.None? then {WantSendTime} else {})
  }

  method WantedDecisions(p: Payload, c: Constraints) returns (want: set<Want>)
    ensures want == Wanted(p, c)
  {
    want := {};
    if p.category.None? {
      want := want + {WantCategory};
    }
    if c.mode.ByModel? {
      want := want + {WantChannels};
    }
    if p.category != Some(Critical) {
      if p.topic.None? {
        want := want + {WantTopic};
      }
      if p.sendAt.None? {
        want := want + {WantSendTime};
      }
    }
  }

  // ---- Channel lists ----

  /** The first occurrence of every element, in order. */
  function Dedup(s: seq<Channel>): (r: seq<Channel>)
    ensures Distinct(r) && Elements(r) == Elements(s)
  {
    if s == [] then [] else
    var front := Dedup(s[..|s| - 1]);
    var last := s[|s| - 1];
    assert Elements(s) == Elements(s[..|s| - 1]) + {last};
    if last in front then front else front + [last]
  }

  /** The elements of a list that lie in a set, in the list's order. */
  function Only(s: seq<Channel>, allowed: set<Channel>): (r: seq<Channel>)
    ensures Elements(r) == Elements(s) * allowed
    ensures Distinct(s) ==> Distinct(r)
  {
    if s == [] then [] else
    var front := Only(s[..|s| - 1], allowed);
    var last := s[|s| - 1];
    assert Elements(s) == Elements(s[..|s| - 1]) + {last};
    assert Distinct(s) ==> last !in Elements(s[..|s| - 1]);
    assert last !in Elements(s[..|s| - 1]) ==> last !in Elements(front);
    assert Elements(front + [last]) == Elements(front) + {last};
    if last in allowed then front + [last] else front
  }

  function Take<T>(s: seq<T>, n: int): seq<T> {
    if n <= 0 then [] else if n < |s| then s[..n] else s
  }

  /** Channels in the alphabetical order of their stored spelling. */
  const ALPHABETICAL: seq<Channel> := [Email, InApp, Push, Sms]

  /** Preference when the model cannot choose: cheapest first, and only one. */
  const DEFAULT_CHANNEL_ORDER: seq<Channel> := [InApp, Push, Email, Sms]
  const FALLBACK_CHANNEL_COUNT: int := 1

  lemma AlphabeticalIsBySpelling(i: nat, j: nat)
    requires i < j < |ALPHABETICAL|
    ensures ChannelValue(ALPHABETICAL[i])[0] < ChannelValue(ALPHABETICAL[j])[0]
  {
  }

  lemma EveryChannelIsListed(c: Channel)
    ensures c in Elements(ALPHABETICAL) && c in Elements(DEFAULT_CHANNEL_ORDER)
    ensures Distinct(ALPHABETICAL) && Distinct(DEFAULT_CHANNEL_ORDER)
  {
  }

  function Sorted(s: set<Channel>): seq<Channel> {
    Only(ALPHABETICAL, s)
  }

  // ---- Assembly ----

  function ChooseCategory(p: Payload, c: Constraints, ml: Option<Suggestion>): (Category, Source) {
    if p.category.Some? then (p.category.value, FromClient)
    else if ml.Some? && ml.value.category.Some? && ml.value.category.value in c.allowedCategories
    then (ml.value.category.value, FromModel)
    else (c.defaultCategory, FromDefault)
  }

  function ChooseTopic(p: Payload, mlTopic: Option<Topic>): (Option<Topic>, Option<Source>) {
    if p.topic.Some? then (p.topic, Some(FromClient))
    else if mlTopic.Some? then (mlTopic, Some(FromModel))
    else (None, None)
  }

  function Fallback(feasible: set<Channel>): seq<Channel> {
    var preferred := Take(Only(DEFAULT_CHANNEL_ORDER, feasible), FALLBACK_CHANNEL_COUNT);
    if preferred != [] then preferred else Take(Sorted(feasible), FALLBACK_CHANNEL_COUNT)
  }

  function ChooseChannels(p: Payload, c: Constraints, ml: Option<Suggestion>)
    : Result<(seq<Channel>, Source), PlanError>
  {
    match c.mode
    case ByClient =>
      if p.channels.None? then Err(NoClientChannels) else Ok((Dedup(p.channels.value), FromClient))
    case ByAddresses =>
      if p.adhocChannels.None? then Err(NoAdhocChannels) else Ok((Sorted(p.adhocChannels.value), FromAddresses))
    case ByModel =>
      var named := if ml.Some? then ml.value.channels else [];
      var suggested := Take(Dedup(Only(named, c.feasible)), c.maxChannels);
      if suggested != [] then Ok((suggested, FromModel)) else Ok((Fallback(c.feasible), FromDefault))
  }

  function ChooseSendTimes(p: Payload, category: Category, channels: seq<Channel>, ml: Option<Suggestion>,
      now: int): map<Channel, Timestamp>
  {
    if ml.Some? && p.sendAt.None? && !category.Critical? then
      map ch | ch in ml.value.sendAt && ch in channels && ml.value.sendAt[ch].aware && ml.value.sendAt[ch].at > now
        :: ml.value.sendAt[ch]
    else map[]
  }

  type Planned = Result<Plan, PlanError>

  function AssemblePlan(p: Payload, c: Constraints, ml: Option<Suggestion>, mlTopic: Option<Topic>, now: int): Planned {
    var (category, categorySource) := ChooseCategory(p, c, ml);
    var (topic, topicSource) := ChooseTopic(p, mlTopic);
    match ChooseChannels(p, c, ml)
    case Err(e) => Err(e)
    case Ok((channels, channelSource)) =>
      var plan := Plan(category, categorySource, topic, topicSource, channels, channelSource,
                       ChooseSendTimes(p, category, channels, ml, now),
                       if ml.Some? then ml.value.modelVersion else None);
      if plan.Valid() then Ok(plan) else Err(InvalidPlan)
  }

  /** The worker's decision: ask the model only if something is open, keep its topic only
      if one was wanted and the project has it. */
  function Decide(p: Payload, c: Constraints, answer: Option<Suggestion>, topics: map<string, Topic>,
      now: int): Planned
  {
    var want := Wanted(p, c);
    var ml := if want == {} then None else answer;
    var mlTopic :=
      if && ml.Some? && WantTopic in want && ml.value.topicSlug.Some? && ml.value.topicSlug.value != ""
         && ml.value.topicSlug.value in topics
      then Some(topics[ml.value.topicSlug.value]) else None;
    AssemblePlan(p, c, ml, mlTopic, now)
  }

  // ---- From an accepted request to a valid plan, whatever the model says ----

  /** The payload and constraints an accepted request is stored with. */
  function Accept(f: Facts, topic: Option<Topic>, sendAt: Option<Timestamp>)
    : Result<(Payload, Constraints), AcceptError>
  {
    match ConstraintsFor(f)
    case Err(e) => Err(e)
    case Ok(c) =>
      var p := Payload(f.category, topic, if f.NamesChannels() then f.requested else None,
                       if f.adhoc then Some(f.available) else None,
                       if f.template.Some? then Some(f.template.value.id) else None,
                       f.variables, f.content, sendAt);
      if p.Valid() then Ok((p, c)) else Err(InvalidPayload)
  }

  lemma TakeKeeps(s: seq<Channel>, n: int)
    requires Distinct(s)
    ensures Distinct(Take(s, n)) && Elements(Take(s, n)) <= Elements(s)
    ensures |Take(s, n)| == (if n <= 0 then 0 else if n < |s| then n else |s|)
  {
  }

  /** Both fallback lists find a feasible channel whenever there is one. */
  lemma FallbackFinds(feasible: set<Channel>)
    requires feasible != {}
    ensures var r := Fallback(feasible); |r| == 1 && Elements(r) <= feasible && Distinct(r)
  {
    var c :| c in feasible;
    EveryChannelIsListed(c);
    assert c in Elements(Only(DEFAULT_CHANNEL_ORDER, feasible));
    TakeKeeps(Only(DEFAULT_CHANNEL_ORDER, feasible), FALLBACK_CHANNEL_COUNT);
  }

  /** What an accepted request's payload and constraints have to do with each other. */
  predicate Compatible(p: Payload, c: Constraints) {
    && c.Valid() && c.maxChannels <= |c.feasible|
    && (c.mode.ByClient? ==> p.channels.Some? && Elements(p.channels.value) == c.feasible)
    && (c.mode.ByAddresses? ==> p.adhocChannels == Some(c.feasible))
    && (!c.mode.ByModel? ==> c.maxChannels == |c.feasible|)
    && (p.category.Some? ==> p.category.value in c.allowedCategories)
    && (Critical in c.allowedCategories <==> p.category == Some(Critical))
  }

  lemma AcceptedIsCompatible(f: Facts, topic: Option<Topic>, sendAt: Option<Timestamp>)
    requires Accept(f, topic, sendAt).Ok?
    ensures var (p, c) := Accept(f, topic, sendAt).value;
            && Compatible(p, c) && p.sendAt == sendAt && p.topic == topic && p.category == f.category
            && p.templateId == (if f.template.Some? then Some(f.template.value.id) else None)
            && p.variables == f.variables && p.content == f.content
            && forall ch :: ch in c.feasible ==> f.Deliverable(ch)
  {
    FeasibleMeansDeliverable(f);
    if f.Mode().ByClient? {
      assert f.Candidates() == Elements(f.requested.value);
    }
  }

  /** Besides its channels, a request is accepted exactly if it brings no variables without a
      template, its category is that of its topic if it gives both, and its send time, if it
      gives one, has a time zone and nothing it declares is CRITICAL. */
  lemma AcceptedExactlyWhen(f: Facts, topic: Option<Topic>, sendAt: Option<Timestamp>)
    ensures Accept(f, topic, sendAt).Ok? <==>
              && ConstraintsFor(f).Ok?
              && (f.template.None? ==> f.variables.None?)
              && (f.category.Some? && topic.Some? ==> f.category.value == topic.value.category)
              && (sendAt.Some? ==> sendAt.value.aware && f.category != Some(Critical)
                                   && (f.category.None? && topic.Some? ==> topic.value.category != Critical))
  {
    if ConstraintsFor(f).Ok? {
      FeasibleMeansDeliverable(f);
      var c := ConstraintsFor(f).value;
      var ch :| ch in c.feasible;
      assert f.Deliverable(ch);
    }
  }

  /** The channels chosen for an accepted request, whatever the model says. */
  lemma ChosenChannels(p: Payload, c: Constraints, ml: Option<Suggestion>)
    requires Compatible(p, c)
    ensures ChooseChannels(p, c, ml).Ok?
    ensures var channels := ChooseChannels(p, c, ml).value.0;
            && channels != [] && Distinct(channels) && Elements(channels) <= c.feasible && |channels| <= c.maxChannels
            && (!c.mode.ByModel? ==> Elements(channels) == c.feasible)
  {
    var channels := ChooseChannels(p, c, ml).value.0;
    match c.mode {
      case ByClient =>
        DistinctCardinality(channels);
        assert |Elements(channels)| > 0;
      case ByAddresses =>
        SortedIsAll(c.feasible);
        DistinctCardinality(channels);
        assert |Elements(channels)| > 0;
      case ByModel =>
        var named := if ml.Some? then ml.value.channels else [];
        TakeKeeps(Dedup(Only(named, c.feasible)), c.maxChannels);
        FallbackFinds(c.feasible);
    }
  }

  lemma SortedIsAll(s: set<Channel>)
    ensures Elements(Sorted(s)) == s && Distinct(Sorted(s))
  {
    forall c ensures c in Elements(ALPHABETICAL) {
      EveryChannelIsListed(c);
    }
  }

  /** The promises a plan keeps, given the constraints it was assembled under. */
  predicate Keeps(plan: Plan, p: Payload, c: Constraints, now: int) {
    && plan.Valid()
    && (forall ch :: ch in plan.channels ==> ch in c.feasible)
    && 1 <= |plan.channels| <= c.maxChannels
    && (!c.mode.ByModel? ==> Elements(plan.channels) == c.feasible)
    && (forall ch :: ch in plan.sendAt ==> ch in plan.channels && plan.sendAt[ch].at > now)
    && plan.category in c.allowedCategories
    && (plan.category.Critical? <==> p.category == Some(Critical))
    && (p.category.Some? ==> plan.category == p.category.value)
    && (p.topic.Some? ==> plan.topic == p.topic)
    && (plan.category.Critical? || p.sendAt.Some? ==> plan.sendAt == map[])
  }

  lemma AssembledPlansKeep(p: Payload, c: Constraints, ml: Option<Suggestion>, mlTopic: Option<Topic>, now: int)
    requires Compatible(p, c)
    ensures AssemblePlan(p, c, ml, mlTopic, now).Ok? && Keeps(AssemblePlan(p, c, ml, mlTopic, now).value, p, c, now)
  {
    ChosenChannels(p, c, ml);
    var channels := ChooseChannels(p, c, ml).value.0;
    forall ch ensures ch in channels <==> ch in Elements(channels) {}
  }

  /** Whatever the model answers, a decision keeps the promises. */
  lemma DecidedPlansKeep(p: Payload, c: Constraints, answer: Option<Suggestion>, topics: map<string, Topic>, now: int)
    requires Compatible(p, c)
    ensures Decide(p, c, answer, topics, now).Ok? && Keeps(Decide(p, c, answer, topics, now).value, p, c, now)
  {
    forall ml, mlTopic
      ensures AssemblePlan(p, c, ml, mlTopic, now).Ok? && Keeps(AssemblePlan(p, c, ml, mlTopic, now).value, p, c, now)
    {
      AssembledPlansKeep(p, c, ml, mlTopic, now);
    }
  }

  /** Whatever the model answers, or when it does not answer, an accepted request gets a
      plan: non-empty, unique, feasible channels, which had an address and could be
      rendered at accept time; no more of them than allowed; send times only for them, in
      the future and time-zone aware; and CRITICAL exactly if the client declared it. */
  lemma EveryAnswerGivesAValidPlan(f: Facts, topic: Option<Topic>, sendAt: Option<Timestamp>,
                                   answer: Option<Suggestion>, topics: map<string, Topic>, now: int)
    requires Accept(f, topic, sendAt).Ok?
    ensures var (p, c) := Accept(f, topic, sendAt).value;
            var r := Decide(p, c, answer, topics, now);
            && r.Ok? && Keeps(r.value, p, c, now)
            && forall ch :: ch in r.value.channels ==> f.Deliverable(ch)
  {
    AcceptedIsCompatible(f, topic, sendAt);
    var (p, c) := Accept(f, topic, sendAt).value;
    DecidedPlansKeep(p, c, answer, topics, now);
  }

  lemma {:induction false} NothingToDrop(s: seq<Channel>, allowed: set<Channel>)
    requires Distinct(s) && Elements(s) <= allowed
    ensures Only(s, allowed) == s && Dedup(s) == s
  {
    if s == [] {
    } else {
      var front := s[..|s| - 1];
      assert Elements(s) == Elements(front) + {s[|s| - 1]};
      NothingToDrop(front, allowed);
      assert s[|s| - 1] !in front;
      assert front + [s[|s| - 1]] == s;
    }
  }

  predicate WithinBounds(channels: seq<Channel>, c: Constraints) {
    channels != [] && Distinct(channels) && Elements(channels) <= c.feasible && |channels| <= c.maxChannels
  }

  /** The list names `c` at some point up to which it has not named `d`. */
  predicate NamedBefore(s: seq<Channel>, c: Channel, d: Channel) {
    exists i :: 0 <= i < |s| && s[i] == c && d !in s[..i + 1]
  }

  lemma LongerListsAgree(s: seq<Channel>, c: Channel, d: Channel)
    requires s != [] && NamedBefore(s[..|s| - 1], c, d)
    ensures NamedBefore(s, c, d)
  {
    var front := s[..|s| - 1];
    var i :| 0 <= i < |front| && front[i] == c && d !in front[..i + 1];
    assert s[..i + 1] == front[..i + 1];
  }

  lemma {:induction false} DedupKeepsOrder(s: seq<Channel>, i: nat, j: nat)
    requires i < j < |Dedup(s)|
    ensures NamedBefore(s, Dedup(s)[i], Dedup(s)[j])
  {
    var front, last := s[..|s| - 1], s[|s| - 1];
    if j < |Dedup(front)| {
      DedupKeepsOrder(front, i, j);
      LongerListsAgree(s, Dedup(s)[i], Dedup(s)[j]);
    } else {
      assert Dedup(front)[i] in Elements(Dedup(front)) && last !in Elements(Dedup(front));
      var m :| 0 <= m < |front| && front[m] == Dedup(s)[i];
      assert s[..m + 1] == front[..m + 1];
    }
  }

  lemma {:induction false} OnlyKeepsOrder(s: seq<Channel>, allowed: set<Channel>, c: Channel, d: Channel)
    requires NamedBefore(Only(s, allowed), c, d) && d in allowed
    ensures NamedBefore(s, c, d)
  {
    if s == [] {
    } else {
      var r, front, last := Only(s, allowed), s[..|s| - 1], s[|s| - 1];
      var i :| 0 <= i < |r| && r[i] == c && d !in r[..i + 1];
      if i < |Only(front, allowed)| {
        assert Only(front, allowed)[..i + 1] == r[..i + 1];
        OnlyKeepsOrder(front, allowed, c, d);
        LongerListsAgree(s, c, d);
      } else {
        assert r[..i + 1] == r && d !in Elements(r);
        assert s[..|s| - 1 + 1] == s && d !in Elements(s);
      }
    }
  }

  /** The first elements of a list that lie in a set, each once, up to a limit. */
  predicate FirstOf(r: seq<Channel>, s: seq<Channel>, allowed: set<Channel>, limit: int) {
    && Distinct(r) && |r| <= limit
    && (forall c :: c in r ==> c in s && c in allowed)
    && (forall i, j :: 0 <= i < j < |r| ==> NamedBefore(s, r[i], r[j]))
    && (forall d :: d in s && d in allowed && d !in r ==> |r| == limit && forall i :: 0 <= i < |r| ==>
                      NamedBefore(s, r[i], d))
  }

  lemma DistinctPrefixesPrecede(r: seq<Channel>, i: nat, j: nat)
    requires Distinct(r) && i < j < |r|
    ensures NamedBefore(r, r[i], r[j])
  {
    assert r[j] !in r[..i + 1];
  }

  /** What is left of a suggestion: its first feasible channels, each once, up to the limit. */
  lemma SuggestionIsCut(named: seq<Channel>, feasible: set<Channel>, limit: int)
    requires limit >= 1
    ensures FirstOf(Take(Dedup(Only(named, feasible)), limit), named, feasible, limit)
  {
    var only := Only(named, feasible);
    var all := Dedup(only);
    var r := Take(all, limit);
    TakeKeeps(all, limit);
    forall i, j | 0 <= i < j < |all| ensures NamedBefore(named, all[i], all[j]) {
      DedupKeepsOrder(only, i, j);
      assert all[j] in Elements(all);
      OnlyKeepsOrder(named, feasible, all[i], all[j]);
    }
    forall c | c in r ensures c in named && c in feasible {
      assert c in Elements(r) && c in Elements(all) && c in Elements(only);
    }
    forall d | d in named && d in feasible && d !in r
      ensures |r| == limit && forall i :: 0 <= i < |r| ==> NamedBefore(named, r[i], d)
    {
      assert d in Elements(only) && d in Elements(all);
      var j :| 0 <= j < |all| && all[j] == d;
      assert j >= |r|;
    }
  }

  lemma PrefixHolds(s: seq<Channel>, j: nat, n: nat)
    requires j < |s| && n <= |s|
    ensures j < n ==> s[j] in s[..n]
  {
    if j < n {
      assert s[..n][j] == s[j];
    }
  }

  /** How much the service would rather not use the channel. */
  function Reluctance(c: Channel): nat {
    match c case InApp => 0 case Push => 1 case Email => 2 case Sms => 3
  }

  /** The fallback is the one feasible channel that comes first in the order in-app, push,
      e-mail, SMS. */
  lemma FallbackIsFirst(feasible: set<Channel>)
    requires feasible != {}
    ensures |Fallback(feasible)| == 1 && Fallback(feasible)[0] in feasible
    ensures forall d :: d in feasible ==> Reluctance(Fallback(feasible)[0]) <= Reluctance(d)
  {
    FallbackFinds(feasible);
    var r, order := Only(DEFAULT_CHANNEL_ORDER, feasible), DEFAULT_CHANNEL_ORDER;
    assert Fallback(feasible)[0] in Elements(Fallback(feasible));
    forall d | d in feasible ensures Reluctance(Fallback(feasible)[0]) <= Reluctance(d) {
      EveryChannelIsListed(d);
      assert d in Elements(r);
      var j :| 0 <= j < |r| && r[j] == d;
      if j > 0 {
        DistinctPrefixesPrecede(r, 0, j);
        OnlyKeepsOrder(order, feasible, r[0], d);
        var i :| 0 <= i < |order| && order[i] == r[0] && d !in order[..i + 1];
        OrderIsByReluctance(i, d);
      }
    }
  }

  lemma OrderIsByReluctance(i: nat, d: Channel)
    requires i < |DEFAULT_CHANNEL_ORDER| && d !in DEFAULT_CHANNEL_ORDER[..i + 1]
    ensures Reluctance(DEFAULT_CHANNEL_ORDER[i]) <= Reluctance(d)
  {
    EveryChannelIsListed(d);
    var j :| 0 <= j < |DEFAULT_CHANNEL_ORDER| && DEFAULT_CHANNEL_ORDER[j] == d;
    PrefixHolds(DEFAULT_CHANNEL_ORDER, j, i + 1);
  }

  lemma {:induction false} SortedIsBySpelling(s: set<Channel>, i: nat, j: nat)
    requires i < j < |Sorted(s)|
    ensures ChannelValue(Sorted(s)[i])[0] < ChannelValue(Sorted(s)[j])[0]
  {
    SortedIsAll(s);
    var c, d := Sorted(s)[i], Sorted(s)[j];
    DistinctPrefixesPrecede(Sorted(s), i, j);
    assert d in Elements(Sorted(s));
    OnlyKeepsOrder(ALPHABETICAL, s, c, d);
    var m :| 0 <= m < |ALPHABETICAL| && ALPHABETICAL[m] == c && d !in ALPHABETICAL[..m + 1];
    EveryChannelIsListed(d);
    var n :| 0 <= n < |ALPHABETICAL| && ALPHABETICAL[n] == d;
    PrefixHolds(ALPHABETICAL, n, m + 1);
    AlphabeticalIsBySpelling(m, n);
  }

  /** Which channels a plan gets, in which order, and who is said to have chosen them: those
      the client named, each once; those it gave addresses for, alphabetically; or the first
      feasible ones of the suggestion; and without one, the feasible channel the service
      likes best. */
  predicate ChannelsFollow(channels: seq<Channel>, source: Source, p: Payload, c: Constraints, named: seq<Channel>) {
    match c.mode
    case ByClient =>
      source == FromClient && p.channels.Some?
      && FirstOf(channels, p.channels.value, c.feasible, c.maxChannels) && Elements(channels) == c.feasible
    case ByAddresses =>
      && source == FromAddresses && Elements(channels) == c.feasible && Distinct(channels)
      && forall i, j :: 0 <= i < j < |channels| ==> ChannelValue(channels[i])[0] < ChannelValue(channels[j])[0]
    case ByModel =>
      if exists d :: d in named && d in c.feasible
      then source == FromModel && FirstOf(channels, named, c.feasible, c.maxChannels)
      else
        && source == FromDefault && |channels| == 1 && channels[0] in c.feasible
        && forall d :: d in c.feasible ==> Reluctance(channels[0]) <= Reluctance(d)
  }

  lemma ClientsChannels(p: Payload, c: Constraints, ml: Option<Suggestion>)
    requires Compatible(p, c) && c.mode.ByClient?
    ensures FirstOf(Dedup(p.channels.value), p.channels.value, c.feasible, c.maxChannels)
    ensures Elements(Dedup(p.channels.value)) == c.feasible
  {
    ChosenChannels(p, c, ml);
    var s, r := p.channels.value, Dedup(p.channels.value);
    forall i, j | 0 <= i < j < |r| ensures NamedBefore(s, r[i], r[j]) {
      DedupKeepsOrder(s, i, j);
    }
    forall d ensures d in r <==> d in s && d in c.feasible {
      assert (d in r <==> d in Elements(r)) && (d in s <==> d in Elements(s));
    }
  }

  lemma ModelsChannels(p: Payload, c: Constraints, ml: Option<Suggestion>)
    requires Compatible(p, c) && c.mode.ByModel?
    ensures ChooseChannels(p, c, ml).Ok?
    ensures ChannelsFollow(ChooseChannels(p, c, ml).value.0, ChooseChannels(p, c, ml).value.1, p, c,
                           if ml.Some? then ml.value.channels else [])
  {
    var named := if ml.Some? then ml.value.channels else [];
    SuggestionIsCut(named, c.feasible, c.maxChannels);
    FallbackIsFirst(c.feasible);
    var suggested := Take(Dedup(Only(named, c.feasible)), c.maxChannels);
    assert suggested != [] ==> suggested[0] in suggested;
    if d :| d in named && d in c.feasible {
      assert d in suggested || |suggested| == c.maxChannels;
    }
  }

  lemma ChannelsAreChosen(p: Payload, c: Constraints, ml: Option<Suggestion>)
    requires Compatible(p, c)
    ensures ChooseChannels(p, c, ml).Ok?
    ensures ChannelsFollow(ChooseChannels(p, c, ml).value.0, ChooseChannels(p, c, ml).value.1, p, c,
                           if ml.Some? then ml.value.channels else [])
  {
    match c.mode {
      case ByClient => ClientsChannels(p, c, ml);
      case ByAddresses =>
        ChosenChannels(p, c, ml);
        forall i, j | 0 <= i < j < |Sorted(c.feasible)|
          ensures ChannelValue(Sorted(c.feasible)[i])[0] < ChannelValue(Sorted(c.feasible)[j])[0]
        {
          SortedIsBySpelling(c.feasible, i, j);
        }
      case ByModel => ModelsChannels(p, c, ml);
    }
  }

  /** The topic of a plan, and who chose it: the client's; or, unless the client declared the
      request CRITICAL, the one the model names, if the project has it. */
  predicate TopicFollows(topic: Option<Topic>, source: Option<Source>, p: Payload, ml: Suggestion,
      topics: map<string, Topic>)
  {
    if p.topic.Some? then topic == p.topic && source == Some(FromClient)
    else if p.category != Some(Critical) && ml.topicSlug.Some? && ml.topicSlug.value != ""
            && ml.topicSlug.value in topics
    then topic == Some(topics[ml.topicSlug.value]) && source == Some(FromModel)
    else topic == None && source == None
  }

  /** Precedence, decision by decision: what the client fixed stands, then the model's answer
      as far as it is allowed, then the default. */
  lemma DecisionsFollowTheAnswer(p: Payload, c: Constraints, ml: Suggestion, topics: map<string, Topic>, now: int)
    requires Compatible(p, c)
    ensures Decide(p, c, Some(ml), topics, now).Ok?
    ensures var plan := Decide(p, c, Some(ml), topics, now).value;
            && (plan.category, plan.categorySource) ==
               (if p.category.Some? then (p.category.value, FromClient)
                else if ml.category.Some? && ml.category.value in c.allowedCategories then
                      (ml.category.value, FromModel)
                else (c.defaultCategory, FromDefault))
            && TopicFollows(plan.topic, plan.topicSource, p, ml, topics)
            && ChannelsFollow(plan.channels, plan.channelSource, p, c, ml.channels)
            && (forall ch :: ch in plan.sendAt <==>
                  && p.sendAt.None? && !plan.category.Critical? && ch in plan.channels
                  && ch in ml.sendAt && ml.sendAt[ch].aware && ml.sendAt[ch].at > now)
            && (forall ch :: ch in plan.sendAt ==> plan.sendAt[ch] == ml.sendAt[ch])
            && plan.modelVersion == (if Wanted(p, c) == {} then None else ml.modelVersion)
  {
    DecidedPlansKeep(p, c, Some(ml), topics, now);
    ChannelsAreChosen(p, c, Some(ml));
    ChannelsAreChosen(p, c, None);
  }

  /** A list without repetitions is followed to the letter, the client's as well as a
      suggestion inside the constraints. */
  lemma ConformingSuggestionsAreFollowed(p: Payload, c: Constraints, ml: Suggestion, topics: map<string, Topic>,
      now: int)
    requires Compatible(p, c)
    ensures Decide(p, c, Some(ml), topics, now).Ok?
    ensures var plan := Decide(p, c, Some(ml), topics, now).value;
            && (c.mode.ByClient? && Distinct(p.channels.value) ==> plan.channels == p.channels.value)
            && (c.mode.ByModel? && WithinBounds(ml.channels, c) ==>
                  plan.channels == ml.channels && plan.channelSource == FromModel)
  {
    DecidedPlansKeep(p, c, Some(ml), topics, now);
    if c.mode.ByClient? && Distinct(p.channels.value) {
      NothingToDrop(p.channels.value, c.feasible);
    }
    if WithinBounds(ml.channels, c) {
      NothingToDrop(ml.channels, c.feasible);
    }
  }

  // ---- The model cannot touch what was not asked of it ----

  /** The two suggestions agree on every field that was asked for. */
  predicate AgreeOn(want: set<Want>, a: Suggestion, b: Suggestion) {
    && (WantCategory in want ==> a.category == b.category)
    && (WantTopic in want ==> a.topicSlug == b.topicSlug)
    && (WantChannels in want ==> a.channels == b.channels)
    && (WantSendTime in want ==> a.sendAt == b.sendAt)
    && a.modelVersion == b.modelVersion
  }

  /** Suggestions that agree on the wanted fields (and the version) give the same plan. */
  lemma OnlyWantedFieldsMatter(p: Payload, c: Constraints, a: Suggestion, b: Suggestion, topics: map<string, Topic>,
      now: int)
    requires AgreeOn(Wanted(p, c), a, b)
    ensures Decide(p, c, Some(a), topics, now) == Decide(p, c, Some(b), topics, now)
  {
    if Wanted(p, c) != {} {
      var (category, source) := ChooseCategory(p, c, Some(a));
      assert ChooseCategory(p, c, Some(b)) == (category, source);
      assert ChooseChannels(p, c, Some(a)) == ChooseChannels(p, c, Some(b));
      if p.sendAt.None? && !category.Critical? {
        assert WantSendTime in Wanted(p, c);
      }
    }
  }

  /** A model that does not answer counts as one without an opinion. */
  lemma NoAnswerIsNoOpinion(p: Payload, c: Constraints, topics: map<string, Topic>, now: int)
    ensures Decide(p, c, None, topics, now) == Decide(p, c, Some(NO_OPINION), topics, now)
  {
  }

  /** A topic the client chose does not set the plan's category: without an explicit
      category, even a request on a CRITICAL topic never gets a CRITICAL plan. */
  lemma TopicsDoNotDeclareCritical(f: Facts, topic: Topic, answer: Option<Suggestion>, topics: map<string, Topic>,
      now: int)
    requires f.category.None? && topic.category.Critical? && Accept(f, Some(topic), None).Ok?
    ensures var (p, c) := Accept(f, Some(topic), None).value;
            && p.DeclaredCategory() == Some(Critical)
            && Decide(p, c, answer, topics, now).Ok?
            && !Decide(p, c, answer, topics, now).value.category.Critical?
  {
    AcceptedIsCompatible(f, Some(topic), None);
    EveryAnswerGivesAValidPlan(f, Some(topic), None, answer, topics, now);
  }
}
