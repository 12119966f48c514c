/** Rendering a template's content with variables, and the variables that accept time asks
    a sender to supply. */
module TemplateRendering {
  import opened Domain
  import opened Placeholders

  /** Supplied values as text; None is a variable supplied without a value. */
  type Variables = map<string, Option<string>>

  predicate Supplied(env: Variables, name: string) {
    name in env && env[name].Some?
  }

  function Value(env: Variables, name: string): string {
    if Supplied(env, name) then env[name].value else ""
  }

  /** Replace every placeholder by its value, from left to right, going on after the
      placeholder (the value itself is not looked at again). */
  function Substitute(text: string, env: Variables): string
    decreases |text|
  {
    if text == "" then "" else
    match MatchStart(RenderTime, text)
    case Some(m) =>
      MatchIsPlaceholder(RenderTime, text);
      Value(env, m.name) + Substitute(m.rest, env)
    case None => [text[0]] + Substitute(text[1..], env)
  }

  /** The text that tokens stand for once placeholders have values. */
  function Fill(ts: seq<Token>, env: Variables): string {
    if ts == [] then ""
    else (match ts[0]
          case Literal(c) => [c]
          case Placeholder(_, name) => Value(env, name))
         + Fill(ts[1..], env)
  }

  lemma {:induction false} SubstituteFillsTheSplit(text: string, env: Variables)
    ensures Substitute(text, env) == Fill(Split(text), env)
    decreases |text|
  {
    if text == "" {
    } else {
      match MatchStart(RenderTime, text)
      case Some(m) =>
        MatchIsPlaceholder(RenderTime, text);
        SubstituteFillsTheSplit(m.rest, env);
      case None => SubstituteFillsTheSplit(text[1..], env);
    }
  }

  /** Whatever reading of the text one takes (there is just one), rendering keeps its
      literals verbatim and in order and puts the value in place of each placeholder. */
  lemma RenderingFollowsTheReading(ts: seq<Token>, env: Variables)
    requires Reading(ts)
    ensures Substitute(Join(ts), env) == Fill(ts, env)
  {
    ReadingsAreUnique(ts);
    SubstituteFillsTheSplit(Join(ts), env);
  }

  lemma {:induction false} FillConcatenation(a: seq<Token>, b: seq<Token>, env: Variables)
    ensures Fill(a + b, env) == Fill(a, env) + Fill(b, env)
  {
    if a == [] {
      assert [] + b == b;
    } else {
      assert (a + b)[1..] == a[1..] + b;
      FillConcatenation(a[1..], b, env);
    }
  }

  /** A value lands in the output verbatim, between what renders before and after it, even
      when the value spells a placeholder of its own. */
  lemma ValuesAreNotRescanned(before: seq<Token>, raw: string, name: string, after: seq<Token>, env: Variables)
    requires Reading(before + [Placeholder(raw, name)] + after)
    ensures Substitute(Join(before + [Placeholder(raw, name)] + after), env)
            == Fill(before, env) + Value(env, name) + Fill(after, env)
    ensures name in env && env[name].Some? ==> Value(env, name) == env[name].value
  {
    var p := [Placeholder(raw, name)];
    RenderingFollowsTheReading(before + p + after, env);
    FillConcatenation(before + p, after, env);
    FillConcatenation(before, p, env);
    FillOne(raw, name, env);
  }

  lemma FillOne(raw: string, name: string, env: Variables)
    ensures Fill([Placeholder(raw, name)], env) == Value(env, name)
  {
  }

  /** Only the values of the extracted names matter. */
  lemma {:induction false} OnlyExtractedNamesMatter(text: string, env1: Variables, env2: Variables)
    requires forall name :: name in FindAll(RenderTime, text) ==> Value(env1, name) == Value(env2, name)
    ensures Substitute(text, env1) == Substitute(text, env2)
    decreases |text|
  {
    if text == "" {
    } else {
      match MatchStart(RenderTime, text)
      case Some(m) =>
        MatchIsPlaceholder(RenderTime, text);
        assert m.name in FindAll(RenderTime, text);
        OnlyExtractedNamesMatter(m.rest, env1, env2);
      case None => OnlyExtractedNamesMatter(text[1..], env1, env2);
    }
  }

  /** A text without placeholders renders to itself. */
  lemma {:induction false} PlainTextStands(text: string, env: Variables)
    requires FindAll(RenderTime, text) == []
    ensures Substitute(text, env) == text
    decreases |text|
  {
    if text == "" {
    } else {
      match MatchStart(RenderTime, text)
      case Some(m) => MatchIsPlaceholder(RenderTime, text);
      case None =>
        PlainTextStands(text[1..], env);
        assert [text[0]] + text[1..] == text;
    }
  }

  // ---- Rendering a content ----

  datatype RenderError = MissingValues(names: set<string>) | BlankBody

  predicate Blank(s: string) {
    All(Spaces, s)
  }

  function TextOf(t: Option<string>): string {
    if t.Some? then t.value else ""
  }

  /** The render-time names of a title and body. */
  function Extracted(content: Content): set<string> {
    (set name | name in FindAll(RenderTime, TextOf(content.title)))
    + (set name | name in FindAll(RenderTime, content.body))
  }

  /** The extracted names without a value. */
  function Missing(content: Content, env: Variables): set<string> {
    set name | name in Extracted(content) && !Supplied(env, name)
  }

  /** The variables a rendering gets: none supplied counts as an empty set of them. */
  function EnvOf(variables: Option<Variables>): Variables {
    if variables.Some? then variables.value else map[]
  }

  function Render(content: Content, variables: Option<Variables>): Result<Content, RenderError> {
    var env := EnvOf(variables);
    if Missing(content, env) != {} then Err(MissingValues(Missing(content, env))) else
    var title := if TextOf(content.title) != "" then Some(Substitute(content.title.value, env)) else None;
    var body := Substitute(content.body, env);
    if Blank(body) then Err(BlankBody) else Ok(content.(title := title, body := body))
  }

  /** A reading of the text, which is empty when absent. */
  ghost predicate Reads(ts: seq<Token>, text: Option<string>) {
    Reading(ts) && Join(ts) == match text case Some(t) => t case None => ""
  }

  /** A name of the reading that has no value. */
  predicate Lacks(ts: seq<Token>, env: Variables, name: string) {
    name in NamesIn(ts) && (name in env ==> env[name].None?)
  }

  /** Rendering by the readings of its title and body, whichever they are: it reports exactly
      the names without a value; otherwise the title and the body are filled in (an absent or
      empty title becomes absent), the actions and images stand, and only a blank result is
      refused. */
  lemma RenderingFillsTheReadings(content: Content, variables: Option<Variables>, title: seq<Token>, body: seq<Token>)
    requires Reads(title, content.title) && Reads(body, Some(content.body))
    ensures var env := EnvOf(variables);
            match Render(content, variables)
            case Err(MissingValues(names)) =>
              && names != {}
              && forall name :: name in names <==> Lacks(title, env, name) || Lacks(body, env, name)
            case Err(BlankBody) =>
              && (forall name :: !Lacks(title, env, name) && !Lacks(body, env, name))
              && forall c :: c in Fill(body, env) ==> IsSpace(c)
            case Ok(r) =>
              && (forall name :: !Lacks(title, env, name) && !Lacks(body, env, name))
              && r.title == (if title == [] then None else Some(Fill(title, env)))
              && r.body == Fill(body, env) && !(forall c :: c in r.body ==> IsSpace(c))
              && (r.actions, r.images) == (content.actions, content.images)
  {
    ReadingIsRendered(title, TextOf(content.title), EnvOf(variables));
    ReadingIsRendered(body, content.body, EnvOf(variables));
    MissingIsLacking(content, EnvOf(variables), title, body);
    BlankIsSpaces(Fill(body, EnvOf(variables)));
  }

  lemma MissingIsLacking(content: Content, env: Variables, title: seq<Token>, body: seq<Token>)
    requires Reads(title, content.title) && Reads(body, Some(content.body))
    ensures forall name :: name in Missing(content, env) <==> Lacks(title, env, name) || Lacks(body, env, name)
  {
    ReadingIsRendered(title, TextOf(content.title), env);
    ReadingIsRendered(body, content.body, env);
  }

  lemma BlankIsSpaces(s: string)
    ensures Blank(s) <==> forall c :: c in s ==> IsSpace(c)
  {
    assert forall i :: 0 <= i < |s| ==> s[i] in s;
  }

  /** A reading of a text names its placeholders and tells what it renders to. */
  lemma ReadingIsRendered(ts: seq<Token>, text: string, env: Variables)
    requires Reading(ts) && Join(ts) == text
    ensures FindAll(RenderTime, text) == NamesIn(ts) && Substitute(text, env) == Fill(ts, env)
    ensures text == "" <==> ts == []
  {
    ReadingsAreUnique(ts);
    FindAllNamesTheSplit(text);
    RenderingFollowsTheReading(ts, env);
  }

  // ---- The variables accept time asks for ----

  function ExtractVariables(text: Option<string>): set<string> {
    set name | name in FindAll(AcceptTime, TextOf(text))
  }

  function ActionVariables(actions: seq<Action>): set<string> {
    if actions == [] then {} else
    var last := actions[|actions| - 1];
    ActionVariables(actions[..|actions| - 1]) + ExtractVariables(Some(last.caption)) + ExtractVariables(Some(last.url))
  }

  function ImageVariables(images: seq<Image>): set<string> {
    if images == [] then {} else
    var last := images[|images| - 1];
    ImageVariables(images[..|images| - 1]) + ExtractVariables(Some(last.url)) + ExtractVariables(last.alt)
  }

  /** Every accept-time name in a content: title, body, actions and images. */
  function ContentVariables(content: Content): set<string> {
    ExtractVariables(content.title) + ExtractVariables(Some(content.body))
    + ActionVariables(content.actions) + ImageVariables(content.images)
  }

  lemma OneMoreAction(actions: seq<Action>, i: nat)
    requires i < |actions|
    ensures ActionVariables(actions[..i + 1])
            == ActionVariables(actions[..i])
               + ExtractVariables(Some(actions[i].caption)) + ExtractVariables(Some(actions[i].url))
  {
    assert actions[..i + 1][..i] == actions[..i];
  }

  lemma OneMoreImage(images: seq<Image>, i: nat)
    requires i < |images|
    ensures ImageVariables(images[..i + 1])
            == ImageVariables(images[..i]) + ExtractVariables(Some(images[i].url)) + ExtractVariables(images[i].alt)
  {
    assert images[..i + 1][..i] == images[..i];
  }

  method CollectVariables(content: Content) returns (found: set<string>)
    ensures found == ContentVariables(content)
  {
    found := {};
    found := found + ExtractVariables(content.title);
    found := found + ExtractVariables(Some(content.body));
    ghost var texts := found;
    for i := 0 to |content.actions|
      invariant found == texts + ActionVariables(content.actions[..i])
    {
      var action := content.actions[i];
      OneMoreAction(content.actions, i);
      found := found + ExtractVariables(Some(action.caption));
      found := found + ExtractVariables(Some(action.url));
    }
    assert content.actions[..|content.actions|] == content.actions;
    texts := found;
    for i := 0 to |content.images|
      invariant found == texts + ImageVariables(content.images[..i])
    {
      var image := content.images[i];
      OneMoreImage(content.images, i);
      found := found + ExtractVariables(Some(image.url));
      found := found + ExtractVariables(image.alt);
    }
    assert content.images[..|content.images|] == content.images;
  }

  lemma {:induction false} FilteredNames(names: seq<string>, name: string)
    ensures name in WithoutLeadingDigit(names) <==> name in names && !LeadingDigit(name)
  {
    if names == [] {
    } else {
      FilteredNames(names[1..], name);
    }
  }

  /** Accept time asks for exactly the render-time names of the title and body that have no
      leading digit, and possibly for more (those of actions and images). */
  lemma AskedForWhatIsRendered(content: Content, name: string)
    ensures name in Extracted(content) && !LeadingDigit(name) ==> name in ContentVariables(content)
    ensures name in ExtractVariables(content.title) + ExtractVariables(Some(content.body))
            <==> name in Extracted(content) && !LeadingDigit(name)
  {
    ScannersAgree(TextOf(content.title));
    ScannersAgree(content.body);
    FilteredNames(FindAll(RenderTime, TextOf(content.title)), name);
    FilteredNames(FindAll(RenderTime, content.body), name);
  }

  /** With every variable supplied that accept time asks for, rendering reports missing
      values exactly when a supplied variable has no value, or a name with a leading digit
      (which accept time does not see) was not supplied. */
  lemma RenderFailsExactlyWhen(content: Content, variables: Option<Variables>)
    requires ContentVariables(content) <= EnvOf(variables).Keys
    ensures var env := EnvOf(variables);
            (Render(content, variables).Err? && Render(content, variables).error.MissingValues?) <==>
              exists name :: name in Extracted(content) &&
                             ((name in env && env[name].None?) || (LeadingDigit(name) && name !in env))
  {
    var env := EnvOf(variables);
    forall name | name in Extracted(content) && !Supplied(env, name)
      ensures (name in env && env[name].None?) || (LeadingDigit(name) && name !in env)
    {
      AskedForWhatIsRendered(content, name);
    }
    if name :|
         name in Extracted(content) && ((name in env && env[name].None?) || (LeadingDigit(name) && name !in env)) {
      assert name in Missing(content, env);
    }
  }

  lemma DigitPlaceholder()
    ensures FindAll(RenderTime, "{{1}}") == ["1"] && FindAll(AcceptTime, "{{1}}") == []
  {
    assert "{{1}}" == Spell("", "1", "");
    assert IsPlaceholder(RenderTime, "{{1}}", "1");
    PlaceholderIsMatched(RenderTime, "{{1}}", "1", "");
    assert "{{1}}" + "" == "{{1}}";
    ScannersAgree("{{1}}");
  }

  /** A name with a leading digit is asked for by nobody and missed by the renderer. */
  lemma LeadingDigitsSlipThrough(content: Content)
    requires content == Content(None, "{{1}}", [], [])
    ensures ContentVariables(content) == {} && Render(content, None) == Err(MissingValues({"1"}))
  {
    DigitPlaceholder();
    assert ContentVariables(content) == {};
    assert Extracted(content) == {"1"};
    assert Missing(content, map[]) == {"1"};
  }

  /** A value of blanks is a value, but a body of nothing else is refused: a request that
      supplies everything can still fail to render. */
  lemma BlankValuesSlipThrough(content: Content, variables: Option<Variables>)
    requires content == Content(None, "{{a}}", [], []) && variables == Some(map["a" := Some(" ")])
    ensures ContentVariables(content) <= EnvOf(variables).Keys && Render(content, variables) == Err(BlankBody)
  {
    assert "{{a}}" == Spell("", "a", "") && IsPlaceholder(RenderTime, "{{a}}", "a");
    var ts := [Placeholder("{{a}}", "a")];
    assert ts[1..] == [] && Join(ts) == "{{a}}" + "" == "{{a}}";
    assert Reads(ts, Some(content.body)) && Reads([], content.title);
    FillOne("{{a}}", "a", EnvOf(variables));
    RenderingFillsTheReadings(content, variables, [], ts);
    ReadingIsRendered(ts, content.body, EnvOf(variables));
    ScannersAgree("{{a}}");
    assert WithoutLeadingDigit(["a"]) == ["a"];
    assert ContentVariables(content) == {"a"};
  }
}
