/** The space a decision model may choose from, computed when a request is accepted. */
module DecisionConstraints {
  import opened Domain
  import opened Placeholders
  import opened TemplateRendering

  datatype ChannelMode = ByClient | ByAddresses | ByModel

  const DEFAULT_CATEGORY: Category := Informational
  const INFERABLE_CATEGORIES: set<Category> := {Informational, Social, Promotional}

  datatype Constraints = Constraints(
    allowedCategories: set<Category>,
    defaultCategory: Category,
    mode: ChannelMode,
    feasible: set<Channel>,
    maxChannels: int)
  {
    predicate Valid() {
      feasible != {} && maxChannels >= 1 && defaultCategory in allowedCategories
    }
  }

  /** One content per channel. */
  datatype Template = Template(id: nat, variants: map<Channel, Content>)

  datatype Problem =
    | NoVariant
    | MissingVariables(names: set<string>)
    | NoContent
    | TitleRequired
    | TitleNotAllowed

  datatype AcceptError =
    | ChannelsWithAddresses
    | NoAddressFor(channels: set<Channel>)
    | Undeliverable(problems: map<Channel, Problem>)
    | InvalidConstraints
    | InvalidPayload

  /** The channel's rule for a content, if it breaks one. */
  function ContentProblem(channel: Channel, content: Content): Option<Problem> {
    if channel.Email? && Blank(TextOf(content.title)) then Some(TitleRequired)
    else if channel.Sms? && TextOf(content.title) != "" then Some(TitleNotAllowed)
    else None
  }

  /** Why the channel cannot deliver this notification, or None if it can. */
  function RenderProblem(channel: Channel, template: Option<Template>, provided: set<string>,
      content: Option<Content>): Option<Problem>
  {
    if template.Some? then
      if channel !in template.value.variants then Some(NoVariant)
      else
        var missing := ContentVariables(template.value.variants[channel]) - provided;
        if missing != {} then Some(MissingVariables(missing)) else None
    else if content.None? then Some(NoContent)
    else ContentProblem(channel, content.value)
  }

  function Provided(variables: Option<Variables>): set<string> {
    if variables.Some? then variables.value.Keys else {}
  }

  /** What accept time knows when it computes the constraints. */
  datatype Facts = Facts(
    available: set<Channel>,
    adhoc: bool,
    requested: Option<seq<Channel>>,
    optedOut: set<Channel>,
    category: Option<Category>,
    template: Option<Template>,
    variables: Option<Variables>,
    content: Option<Content>)
  {
    predicate NamesChannels() {
      requested.Some? && requested.value != []
    }

    function Mode(): ChannelMode {
      if adhoc then ByAddresses else if NamesChannels() then ByClient else ByModel
    }

    function Candidates(): set<Channel> {
      if Mode().ByClient? then set c | c in requested.value else available
    }

    function ProblemOf(c: Channel): Option<Problem> {
      RenderProblem(c, template, Provided(variables), content)
    }

    /** The candidates that cannot deliver, each with its reason. */
    function Problems(among: set<Channel>): map<Channel, Problem> {
      map c | c in among && ProblemOf(c).Some? :: ProblemOf(c).value
    }

    predicate Deliverable(c: Channel) {
      c in available && ProblemOf(c).None?
    }
  }

  type Computed = Result<Constraints, AcceptError>

  function Construct(c: Constraints): Computed {
    if c.Valid() then Ok(c) else Err(InvalidConstraints)
  }

  function ConstraintsFor(f: Facts): Computed {
    var candidates := f.Candidates();
    var problems := f.Problems(candidates);
    var allowed := if f.category.Some? then {f.category.value} else INFERABLE_CATEGORIES;
    var default := if f.category.Some? then f.category.value else DEFAULT_CATEGORY;
    if f.adhoc && f.NamesChannels() then Err(ChannelsWithAddresses)
    else if f.Mode().ByClient? && candidates - f.available != {} then Err(NoAddressFor(candidates - f.available))
    else if !f.Mode().ByModel? then
      if problems != map[] then Err(Undeliverable(problems))
      else Construct(Constraints(allowed, default, f.Mode(), candidates, |candidates|))
    else
      var deliverable := candidates - problems.Keys;
      if deliverable == {} then Err(Undeliverable(problems)) else
      var reachable := deliverable - f.optedOut;
      var feasible := if reachable != {} then reachable else deliverable;
      Construct(Constraints(allowed, default, ByModel, feasible, if f.template.Some? then |feasible| else 1))
  }

  /** Check the candidates one by one, in any order. */
  method CollectProblems(f: Facts, candidates: set<Channel>) returns (problems: map<Channel, Problem>)
    ensures problems == f.Problems(candidates)
  {
    problems := map[];
    var todo := candidates;
    while todo != {}
      invariant todo <= candidates && problems == f.Problems(candidates - todo)
      decreases todo
    {
      var channel :| channel in todo;
      var reason := RenderProblem(channel, f.template, Provided(f.variables), f.content);
      if reason.Some? {
        problems := problems[channel := reason.value];
      }
      assert candidates - (todo - {channel}) == candidates - todo + {channel};
      todo := todo - {channel};
    }
    assert candidates - {} == candidates;
  }

  /** The same computation as the accept service runs it, step by step. */
  method ComputeConstraints(f: Facts) returns (r: Computed)
    ensures r == ConstraintsFor(f)
  {
    if f.adhoc && f.NamesChannels() {
      return Err(ChannelsWithAddresses);
    }
    var candidates, mode := f.available, ByModel;
    if f.adhoc {
      mode := ByAddresses;
    } else if f.NamesChannels() {
      candidates, mode := (set c | c in f.requested.value), ByClient;
      var missing := candidates - f.available;
      if missing != {} {
        return Err(NoAddressFor(missing));
      }
    }
    var problems := CollectProblems(f, candidates);
    var feasible, maxChannels := candidates, |candidates|;
    if !mode.ByModel? {
      if problems != map[] {
        return Err(Undeliverable(problems));
      }
    } else {
      feasible := candidates - problems.Keys;
      if feasible == {} {
        return Err(Undeliverable(problems));
      }
      var reachable := feasible - f.optedOut;
      if reachable != {} {
        feasible := reachable;
      }
      maxChannels := if f.template.Some? then |feasible| else 1;
    }
    var allowed, default := INFERABLE_CATEGORIES, DEFAULT_CATEGORY;
    if f.category.Some? {
      allowed, default := {f.category.value}, f.category.value;
    }
    r := Construct(Constraints(allowed, default, mode, feasible, maxChannels));
  }

  /** Constraints that were returned leave only channels that have an address and can be
      rendered, and admit CRITICAL only when the client declared it. */
  lemma FeasibleMeansDeliverable(f: Facts)
    requires ConstraintsFor(f).Ok?
    ensures var c := ConstraintsFor(f).value;
            && c.Valid() && c.maxChannels <= |c.feasible|
            && (forall ch :: ch in c.feasible ==> f.Deliverable(ch))
            && (Critical in c.allowedCategories <==> f.category == Some(Critical))
  {
    var c := ConstraintsFor(f).value;
    forall ch | ch in c.feasible ensures f.Deliverable(ch) {
      assert ch in f.Candidates() && ch !in f.Problems(f.Candidates());
      assert f.Mode().ByClient? && ch !in f.available ==> ch in f.Candidates() - f.available;
    }
    if f.Mode().ByModel? {
      NonEmptyHasSize(c.feasible);
    }
  }

  lemma NonEmptyHasSize<T>(s: set<T>)
    requires s != {}
    ensures |s| >= 1
  {
  }

  /** Naming channels is all or nothing: it is accepted exactly when every named channel
      can deliver, and then exactly the named channels are feasible. */
  lemma NamedChannelsAllOrNothing(f: Facts)
    requires f.Mode().ByClient?
    ensures ConstraintsFor(f).Ok? <==> forall ch :: ch in f.requested.value ==> f.Deliverable(ch)
    ensures ConstraintsFor(f).Ok? ==>
              var c := ConstraintsFor(f).value;
              c.feasible == Elements(f.requested.value) && c.maxChannels == |Elements(f.requested.value)|
  {
    var candidates := f.Candidates();
    assert f.requested.value[0] in candidates;
    NonEmptyHasSize(candidates);
    assert candidates == Elements(f.requested.value);
    if forall ch :: ch in f.requested.value ==> f.Deliverable(ch) {
      assert candidates - f.available == {};
      assert f.Problems(candidates) == map[];
    } else {
      var ch :| ch in f.requested.value && !f.Deliverable(ch);
      assert ch in candidates - f.available || ch in f.Problems(candidates);
    }
  }

  /** Left to the model, a request is accepted exactly when some channel can deliver; the
      feasible ones are the deliverable ones that the recipient has not opted out of, or
      all deliverable ones when it has opted out of them all. */
  lemma ModelChoosesAmongReachable(f: Facts)
    requires f.Mode().ByModel?
    ensures ConstraintsFor(f).Ok? <==> exists ch :: f.Deliverable(ch)
    ensures ConstraintsFor(f).Ok? ==>
              forall ch :: ch in ConstraintsFor(f).value.feasible <==>
                f.Deliverable(ch) && (ch !in f.optedOut || forall other :: f.Deliverable(other) ==> other in f.optedOut)
    ensures ConstraintsFor(f).Ok? ==>
              var c := ConstraintsFor(f).value;
              c.maxChannels == if f.template.Some? then |c.feasible| else 1
  {
    var deliverable := f.available - f.Problems(f.available).Keys;
    forall ch ensures ch in deliverable <==> f.Deliverable(ch) {}
    if deliverable != {} {
      var ch :| ch in deliverable;
      assert f.Deliverable(ch);
      NonEmptyHasSize(deliverable);
      if deliverable - f.optedOut != {} {
        var other :| other in deliverable - f.optedOut;
        assert f.Deliverable(other);
        NonEmptyHasSize(deliverable - f.optedOut);
      }
    }
  }

  /** An address-based request is all or nothing as well: it is accepted exactly when it names
      no channels, has some address, and can be delivered on each; and then all are feasible. */
  lemma AddressesAllOrNothing(f: Facts)
    requires f.adhoc
    ensures ConstraintsFor(f).Ok? <==>
              !f.NamesChannels() && f.available != {} && forall ch :: ch in f.available ==> f.Deliverable(ch)
    ensures ConstraintsFor(f).Ok? ==>
              var c := ConstraintsFor(f).value;
              c.mode.ByAddresses? && c.feasible == f.available && c.maxChannels == |f.available|
  {
    if f.available != {} {
      NonEmptyHasSize(f.available);
    }
    if forall ch :: ch in f.available ==> f.Deliverable(ch) {
      assert f.Problems(f.available) == map[];
    } else {
      var ch :| ch in f.available && !f.Deliverable(ch);
      assert ch in f.Problems(f.available);
    }
  }

  /** The categories left open: the client's own, or all but CRITICAL, with INFORMATIONAL for
      want of a better one.  Who chooses the channels follows from what the client gave. */
  lemma OpenCategories(f: Facts)
    requires ConstraintsFor(f).Ok?
    ensures var c := ConstraintsFor(f).value;
            && (match f.category
                case Some(given) =>
                  c.defaultCategory == given && forall k :: k in c.allowedCategories <==> k == given
                case None =>
                  && c.defaultCategory == Informational
                  && forall k :: k in c.allowedCategories <==> k != Critical)
            && (c.mode.ByAddresses? <==> f.adhoc)
            && (c.mode.ByClient? <==> !f.adhoc && f.requested.Some? && f.requested.value != [])
  {
  }

  predicate HasText(title: Option<string>) {
    title.Some? && exists c :: c in title.value && !IsSpace(c)
  }

  /** When a channel can carry the notification: the template must have a variant for it whose
      every variable is supplied; without a template, there must be a content, with a title on
      e-mail and without one on SMS. */
  predicate CanCarry(f: Facts, channel: Channel) {
    match f.template
    case Some(t) =>
      && channel in t.variants
      && forall name :: name in ContentVariables(t.variants[channel]) ==>
                          f.variables.Some? && name in f.variables.value
    case None =>
      && f.content.Some?
      && (channel.Email? ==> HasText(f.content.value.title))
      && (channel.Sms? ==> f.content.value.title.None? || f.content.value.title.value == "")
  }

  lemma DeliverableExactlyWhen(f: Facts, channel: Channel)
    ensures f.Deliverable(channel) <==> channel in f.available && CanCarry(f, channel)
  {
    if f.template.Some? && channel in f.template.value.variants {
      NothingIsMissing(ContentVariables(f.template.value.variants[channel]), Provided(f.variables));
    }
    if f.content.Some? && f.content.value.title.Some? {
      BlankIsSpaces(f.content.value.title.value);
    }
  }

  lemma NothingIsMissing(asked: set<string>, given: set<string>)
    ensures asked - given == {} <==> forall name :: name in asked ==> name in given
  {
    if asked - given == {} {
      forall name | name in asked ensures name in given {
        assert name in given || name in asked - given;
      }
    }
  }

  /** A feasible channel of a template has a variant, with every variable accept time sees. */
  lemma FeasibleVariant(f: Facts, channel: Channel)
    requires f.template.Some? && f.Deliverable(channel)
    ensures channel in f.template.value.variants
    ensures ContentVariables(f.template.value.variants[channel]) <= Provided(f.variables)
  {
    NothingIsMissing(ContentVariables(f.template.value.variants[channel]), Provided(f.variables));
  }

  /** A template channel judged feasible renders without missing values exactly when every
      extracted name has a value; and it can only lack one for a name that starts with a
      digit, or for a variable that was supplied without a value. */
  lemma FeasibleTemplatesRender(f: Facts, channel: Channel)
    ensures f.template.Some? && ConstraintsFor(f).Ok? && channel in ConstraintsFor(f).value.feasible ==>
              && channel in f.template.value.variants
              && var content := f.template.value.variants[channel];
                 var env := EnvOf(f.variables);
                 Render(content, f.variables).Err? && Render(content, f.variables).error.MissingValues? <==>
                   exists name :: name in Extracted(content) &&
                                  ((name in env && env[name].None?) || (LeadingDigit(name) && name !in env))
  {
    if f.template.Some? && ConstraintsFor(f).Ok? && channel in ConstraintsFor(f).value.feasible {
      FeasibleMeansDeliverable(f);
      assert f.Deliverable(channel);
      FeasibleVariant(f, channel);
      RenderFailsExactlyWhen(f.template.value.variants[channel], f.variables);
    }
  }
}
