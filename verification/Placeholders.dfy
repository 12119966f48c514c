/** The two placeholder scanners.  A placeholder is "{{", spaces, a name, spaces, "}}".
    The render-time pattern takes any name of letters, digits and underscores; the
    accept-time pattern takes only names that do not start with a digit. */
module Placeholders {
  import opened Domain

  /** The characters `\s` matches in a text pattern. */
  predicate IsSpace(c: char) {
    || '\t' <= c <= '\r'
    || '\U{1c}' <= c <= ' '
    || c in {'\U{85}', '\U{a0}', '\U{1680}', '\U{2028}', '\U{2029}', '\U{202f}', '\U{205f}', '\U{3000}'}
    || '\U{2000}' <= c <= '\U{200a}'
  }

  predicate IsDigit(c: char) {
    '0' <= c <= '9'
  }

  predicate IsNameChar(c: char) {
    'A' <= c <= 'Z' || 'a' <= c <= 'z' || IsDigit(c) || c == '_'
  }

  datatype Class = Spaces | NameChars

  predicate In(c: char, k: Class) {
    if k.Spaces? then IsSpace(c) else IsNameChar(c)
  }

  predicate All(k: Class, s: string) {
    forall i :: 0 <= i < |s| ==> In(s[i], k)
  }

  datatype Scanner = RenderTime | AcceptTime

  predicate IsName(kind: Scanner, name: string) {
    && name != ""
    && All(NameChars, name)
    && (kind.AcceptTime? ==> !IsDigit(name[0]))
  }

  /** Names are non-empty words of letters, digits and underscores; at accept time they do not
      start with a digit. */
  lemma NamesAreWords(kind: Scanner, name: string)
    ensures IsName(kind, name) <==>
              && name != ""
              && (forall c :: c in name ==> c == '_' || '0' <= c <= '9' || 'a' <= c <= 'z' || 'A' <= c <= 'Z')
              && (kind == AcceptTime ==> !('0' <= name[0] <= '9'))
  {
    assert forall i :: 0 <= i < |name| ==> name[i] in name;
  }

  function Spell(before: string, name: string, after: string): string {
    "{{" + (before + (name + (after + "}}")))
  }

  /** What the pattern denotes: `raw` is one whole placeholder for `name`. */
  ghost predicate IsPlaceholder(kind: Scanner, raw: string, name: string) {
    && IsName(kind, name)
    && exists before: string, after: string ::
         raw == Spell(before, name, after) && All(Spaces, before) && All(Spaces, after)
  }

  // ---- Matching at the start of a text ----

  /** The longest prefix of characters of one class, and what follows it. */
  function Span(k: Class, s: string): (string, string) {
    if s == "" || !In(s[0], k) then ("", s)
    else ([s[0]] + Span(k, s[1..]).0, Span(k, s[1..]).1)
  }

  lemma {:induction false} SpanLosesNothing(k: Class, s: string)
    ensures s == Span(k, s).0 + Span(k, s).1
  {
    if s == "" || !In(s[0], k) {
    } else {
      SpanLosesNothing(k, s[1..]);
      assert s == [s[0]] + s[1..];
    }
  }

  lemma {:induction false} SpanIsUniform(k: Class, s: string)
    ensures All(k, Span(k, s).0)
  {
    if s == "" || !In(s[0], k) {
    } else {
      SpanIsUniform(k, s[1..]);
    }
  }

  lemma SpanSplits(k: Class, s: string)
    ensures var (run, rest) := Span(k, s); s == run + rest && All(k, run)
  {
    SpanLosesNothing(k, s);
    SpanIsUniform(k, s);
  }

  /** A run of one class that something else follows is exactly the span. */
  lemma {:induction false} SpanIs(k: Class, run: string, rest: string)
    requires All(k, run) && (rest != "" ==> !In(rest[0], k))
    ensures Span(k, run + rest) == (run, rest)
  {
    if run == "" {
      assert run + rest == rest;
    } else {
      assert (run + rest)[0] == run[0] && (run + rest)[1..] == run[1..] + rest;
      SpanIs(k, run[1..], rest);
      assert [run[0]] + run[1..] == run;
    }
  }

  datatype Match = Match(raw: string, name: string, rest: string)

  /** The match of the pattern at the start of the text, if there is one. */
  function MatchStart(kind: Scanner, text: string): Option<Match> {
    if |text| < 2 || text[..2] != "{{" then None else
    var (before, fromName) := Span(Spaces, text[2..]);
    var (name, afterName) := Span(NameChars, fromName);
    var (after, close) := Span(Spaces, afterName);
    if IsName(kind, name) && |close| >= 2 && close[..2] == "}}"
    then Some(Match(Spell(before, name, after), name, close[2..]))
    else None
  }

  lemma Reassociate(before: string, name: string, after: string, rest: string)
    ensures Spell(before, name, after) + rest == "{{" + (before + (name + (after + ("}}" + rest))))
  {
  }

  /** The matcher finds only placeholders, and splits the text there. */
  lemma MatchIsPlaceholder(kind: Scanner, text: string)
    requires MatchStart(kind, text).Some?
    ensures var m := MatchStart(kind, text).value;
            text == m.raw + m.rest && |m.rest| < |text| && IsPlaceholder(kind, m.raw, m.name)
  {
    var (before, fromName) := Span(Spaces, text[2..]);
    var (name, afterName) := Span(NameChars, fromName);
    var (after, close) := Span(Spaces, afterName);
    SpanSplits(Spaces, text[2..]);
    SpanSplits(NameChars, fromName);
    SpanSplits(Spaces, afterName);
    assert close == "}}" + close[2..];
    Reassociate(before, name, after, close[2..]);
    assert text == "{{" + text[2..];
  }

  lemma ClassesAreApart(c: char)
    ensures !(In(c, Spaces) && In(c, NameChars))
    ensures In(c, Spaces) || In(c, NameChars) ==> c != '{' && c != '}'
  {
  }

  /** The matcher finds every placeholder a text starts with. */
  lemma PlaceholderIsMatched(kind: Scanner, raw: string, name: string, rest: string)
    requires IsPlaceholder(kind, raw, name)
    ensures MatchStart(kind, raw + rest) == Some(Match(raw, name, rest))
  {
    var before, after :| raw == Spell(before, name, after) && All(Spaces, before) && All(Spaces, after);
    Reassociate(before, name, after, rest);
    var text := raw + rest;
    var close := "}}" + rest;
    assert text[..2] == "{{" && text[2..] == before + (name + (after + close));
    ClassesAreApart((name + (after + close))[0]);
    SpanIs(Spaces, before, name + (after + close));
    ClassesAreApart((after + close)[0]);
    SpanIs(NameChars, name, after + close);
    ClassesAreApart(close[0]);
    SpanIs(Spaces, after, close);
    assert close[..2] == "}}" && close[2..] == rest;
  }

  /** Placeholders are unambiguous: a text starts with at most one, whatever its pattern. */
  lemma PlaceholdersAreUnambiguous(k1: Scanner, k2: Scanner, raw1: string, name1: string, raw2: string, name2: string,
      text: string)
    requires IsPlaceholder(k1, raw1, name1) && IsPlaceholder(k2, raw2, name2)
    requires raw1 <= text && raw2 <= text
    ensures raw1 == raw2 && name1 == name2
  {
    assert IsPlaceholder(RenderTime, raw1, name1) && IsPlaceholder(RenderTime, raw2, name2);
    PlaceholderIsMatched(RenderTime, raw1, name1, text[|raw1|..]);
    PlaceholderIsMatched(RenderTime, raw2, name2, text[|raw2|..]);
    assert raw1 + text[|raw1|..] == text && raw2 + text[|raw2|..] == text;
  }

  // ---- Scanning a whole text ----

  /** The names found from left to right, as `findall` returns them. */
  function FindAll(kind: Scanner, text: string): seq<string>
    decreases |text|
  {
    if text == "" then [] else
    match MatchStart(kind, text)
    case Some(m) =>
      MatchIsPlaceholder(kind, text);
      [m.name] + FindAll(kind, m.rest)
    case None => FindAll(kind, text[1..])
  }

  predicate LeadingDigit(name: string) {
    name != "" && IsDigit(name[0])
  }

  function WithoutLeadingDigit(names: seq<string>): seq<string> {
    if names == [] then []
    else (if LeadingDigit(names[0]) then [] else [names[0]]) + WithoutLeadingDigit(names[1..])
  }

  /** Both scanners agree at a position, but for names with a leading digit. */
  lemma MatchesAgree(text: string)
    ensures match MatchStart(RenderTime, text)
            case None => MatchStart(AcceptTime, text) == None
            case Some(m) => MatchStart(AcceptTime, text) == if LeadingDigit(m.name) then None else Some(m)
  {
  }

  /** Nothing is found in a stretch without opening braces. */
  lemma {:induction false} NothingWithoutBraces(kind: Scanner, s: string, rest: string)
    requires '{' !in s
    ensures FindAll(kind, s + rest) == FindAll(kind, rest)
  {
    if s == "" {
      assert s + rest == rest;
    } else {
      assert (s + rest)[0] == s[0] && s[0] in s && (s + rest)[1..] == s[1..] + rest;
      assert MatchStart(kind, s + rest) == None;
      NothingWithoutBraces(kind, s[1..], rest);
    }
  }

  /** After its opening, a placeholder has no further opening brace. */
  lemma OneOpening(raw: string, name: string) returns (body: string)
    requires IsPlaceholder(RenderTime, raw, name)
    ensures raw == "{{" + body && body != "" && '{' !in body
  {
    var before, after :| raw == Spell(before, name, after) && All(Spaces, before) && All(Spaces, after);
    body := before + (name + (after + "}}"));
    forall c | c in body ensures c != '{' {
      ClassesAreApart(c);
    }
  }

  /** The accept-time scanner walks through a placeholder it does not accept. */
  lemma AcceptTimeSkips(text: string)
    requires MatchStart(RenderTime, text).Some? && LeadingDigit(MatchStart(RenderTime, text).value.name)
    ensures FindAll(AcceptTime, text) == FindAll(AcceptTime, MatchStart(RenderTime, text).value.rest)
  {
    var m := MatchStart(RenderTime, text).value;
    MatchesAgree(text);
    MatchIsPlaceholder(RenderTime, text);
    var body := OneOpening(m.raw, m.name);
    assert text[1..] == "{" + (body + m.rest);
    assert text[1..][1] == body[0];
    assert text[1..][1..] == body + m.rest;
    assert MatchStart(AcceptTime, text[1..]) == None;
    NothingWithoutBraces(AcceptTime, body, m.rest);
  }

  /** On every text, accept time finds exactly the names render time finds, in order, less
      those that start with a digit. */
  lemma {:induction false} ScannersAgree(text: string)
    ensures FindAll(AcceptTime, text) == WithoutLeadingDigit(FindAll(RenderTime, text))
    decreases |text|
  {
    if text == "" {
    } else {
      MatchesAgree(text);
      match MatchStart(RenderTime, text)
      case None => ScannersAgree(text[1..]);
      case Some(m) =>
        MatchIsPlaceholder(RenderTime, text);
        ScannersAgree(m.rest);
        if LeadingDigit(m.name) {
          AcceptTimeSkips(text);
        }
    }
  }

  // ---- Splitting a text into literals and placeholders ----

  datatype Token = Literal(c: char) | Placeholder(raw: string, name: string)

  function Spelling(t: Token): string {
    match t
    case Literal(c) => [c]
    case Placeholder(raw, _) => raw
  }

  function Join(ts: seq<Token>): string {
    if ts == [] then "" else Spelling(ts[0]) + Join(ts[1..])
  }

  /** No placeholder starts the text. */
  ghost predicate NoneStarts(text: string) {
    forall raw, name :: IsPlaceholder(RenderTime, raw, name) ==> !(raw <= text)
  }

  /** A reading of a text from left to right: placeholders are real ones, and no literal
      stands where a placeholder starts. */
  ghost predicate Reading(ts: seq<Token>) {
    ts != [] ==>
      && (match ts[0]
          case Literal(_) => NoneStarts(Join(ts))
          case Placeholder(raw, name) => IsPlaceholder(RenderTime, raw, name))
      && Reading(ts[1..])
  }

  function Split(text: string): seq<Token>
    decreases |text|
  {
    if text == "" then [] else
    match MatchStart(RenderTime, text)
    case Some(m) =>
      MatchIsPlaceholder(RenderTime, text);
      [Placeholder(m.raw, m.name)] + Split(m.rest)
    case None => [Literal(text[0])] + Split(text[1..])
  }

  /** The matcher fails exactly when no placeholder starts the text. */
  lemma NoMatch(text: string)
    ensures MatchStart(RenderTime, text).None? <==> NoneStarts(text)
  {
    if MatchStart(RenderTime, text).Some? {
      MatchIsPlaceholder(RenderTime, text);
      assert MatchStart(RenderTime, text).value.raw <= text;
    } else {
      forall raw, name | IsPlaceholder(RenderTime, raw, name) ensures !(raw <= text) {
        if raw <= text {
          assert raw + text[|raw|..] == text;
          PlaceholderIsMatched(RenderTime, raw, name, text[|raw|..]);
        }
      }
    }
  }

  /** Splitting loses nothing and is a reading. */
  lemma {:induction false} SplitReads(text: string)
    ensures Join(Split(text)) == text && Reading(Split(text))
    decreases |text|
  {
    if text == "" {
    } else {
      NoMatch(text);
      match MatchStart(RenderTime, text)
      case Some(m) =>
        MatchIsPlaceholder(RenderTime, text);
        SplitReads(m.rest);
      case None =>
        SplitReads(text[1..]);
    }
  }

  /** Every text has exactly one reading. */
  lemma {:induction false} ReadingsAreUnique(ts: seq<Token>)
    requires Reading(ts)
    ensures ts == Split(Join(ts))
  {
    if ts == [] {
    } else {
      ReadingsAreUnique(ts[1..]);
      assert ts == [ts[0]] + ts[1..];
      match ts[0]
      case Placeholder(raw, name) => PlaceholderComesFirst(raw, name, Join(ts[1..]));
      case Literal(c) => LiteralComesFirst(c, Join(ts[1..]));
    }
  }

  lemma LiteralComesFirst(c: char, rest: string)
    requires NoneStarts([c] + rest)
    ensures Split([c] + rest) == [Literal(c)] + Split(rest)
  {
    NoMatch([c] + rest);
    assert ([c] + rest)[1..] == rest;
  }

  lemma PlaceholderComesFirst(raw: string, name: string, rest: string)
    requires IsPlaceholder(RenderTime, raw, name)
    ensures Split(raw + rest) == [Placeholder(raw, name)] + Split(rest)
  {
    PlaceholderIsMatched(RenderTime, raw, name, rest);
  }

  /** The names of the placeholders among the tokens. */
  function NamesIn(ts: seq<Token>): seq<string> {
    if ts == [] then []
    else (if ts[0].Placeholder? then [ts[0].name] else []) + NamesIn(ts[1..])
  }

  /** The scan finds the names of the placeholders that the text splits into. */
  lemma {:induction false} FindAllNamesTheSplit(text: string)
    ensures FindAll(RenderTime, text) == NamesIn(Split(text))
    decreases |text|
  {
    if text == "" {
    } else {
      match MatchStart(RenderTime, text)
      case Some(m) =>
        MatchIsPlaceholder(RenderTime, text);
        FindAllNamesTheSplit(m.rest);
      case None => FindAllNamesTheSplit(text[1..]);
    }
  }
}
