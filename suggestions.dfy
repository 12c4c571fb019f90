/** `POST /api/ai/suggestions`: a prompt per suggestion type, a call to an
    external chat-completion service, extraction of a bracketed span from
    its reply, and the fixed defaults used whenever the service is not
    configured or anything on the way fails.  The service call,
    `JSON.stringify` and `JSON.parse` are parameters of the model. */
module Suggestions {
  import opened Records

  /** A JSON value, for what `JSON.parse` yields and what `context.votes`
      holds. */
  datatype Json =
    | JNull
    | JBool(b: bool)
    | JNumber(n: real)
    | JString(s: string)
    | JArray(items: seq<Json>)
    | JObject(members: seq<(string, Json)>)

  /** The `context` object of the request; a missing key is `None`. */
  datatype Context = Context(
    title: Option<string>,
    description: Option<string>,
    link: Option<string>,
    votes: Option<Json>)

  /** `{}`: the context the catch branch and the parse fallback use. */
  const EmptyContext := Context(None, None, None, None)

  /** The request body; a missing `type` is `""`, which every comparison
      in the route treats as it treats `undefined`.  A missing or `null`
      `context` is `None`.  A body that is a JSON number, string or boolean
      destructures without error to `SuggestBody("", None)`. */
  datatype SuggestBody = SuggestBody(kind: string, context: Option<Context>)

  /** A default date: `dayOffset` days after the current moment, at the
      given local time of day. */
  datatype Slot = Slot(dayOffset: nat, hour: nat, minute: nat, second: nat, millisecond: nat)

  /** What `suggestions` holds in the response. */
  datatype Suggestion =
    | Dates(slots: seq<Slot>)
    | Names(names: seq<string>)
    | Message(text: string)
    | Parsed(value: Json)

  /** A TypeError thrown by reading a key of an undefined `context`. */
  datatype Thrown = ContextUndefined

  datatype Outcome<T> = Value(value: T) | Throws(error: Thrown)

  /** What the call to the chat-completion service ends in: the fetch
      throws, the response is not OK, reading the body as JSON or reaching
      `data.choices[0].message` throws, or the value of
      `choices[0].message.content`.  That value is `None` when it is not a
      string (`null`, absent, a number, an object): reading it does not
      throw, but `parseSuggestions` then fails on `content.match`. */
  datatype Reply = FetchFailed | NotOk | Unreadable | Content(text: Option<string>)

  datatype SuggestResponse = SuggestResponse(suggestions: Suggestion, isAiGenerated: bool)

  /** A template literal's `${x}`: an absent key reads `undefined`. */
  function Render(field: Option<string>): (r: string)
    ensures field.Some? ==> r == field.value
    ensures field.None? ==> r == "undefined"
  {
    if field.Some? then field.value else "undefined"
  }

  /** `${JSON.stringify(x)}`: stringifying `undefined` gives `undefined`,
      which renders as the text `undefined`. */
  function RenderJson(value: Option<Json>, stringify: Json -> string): (r: string)
    ensures value.Some? ==> r == stringify(value.value)
    ensures value.None? ==> r == "undefined"
  {
    if value.Some? then stringify(value.value) else "undefined"
  }

  /** `needle` occurs in `text` at position `at`. */
  predicate OccursAt(needle: string, text: string, at: nat) {
    at + |needle| <= |text| && text[at..at + |needle|] == needle
  }

  // ---------------------------------------------------------------------
  // generatePrompt

  const DatesPromptStart := "Suggest 3 good meeting dates for the next 2 weeks. Consider that the meeting is about: \""
  const DatesPromptEnd := "\". Return only a JSON array of ISO datetime strings."
  const LocationsPromptStart := "Suggest 3 good meeting locations for: \""
  const LocationsPromptMiddle := "\". Consider the context: \""
  const LocationsPromptEnd := "\". Return only a JSON array of location names as strings."
  const BestOptionPromptStart := "Based on these votes: "
  const BestOptionPromptEnd := ", suggest the best meeting time and location. Consider 'yes' votes as 3 points, 'maybe' as 1 point, and 'no' as 0 points. Return a brief recommendation in Polish."
  const InvitationPromptStart := "Generate a friendly invitation message in Polish for a meeting titled \""
  const InvitationPromptMiddle := "\" with description \""
  const InvitationPromptLink := "\". Include the link: "
  const InvitationPromptEnd := ". Keep it concise and professional."

  predicate KnownKind(kind: string) {
    kind == "dates" || kind == "locations" || kind == "best-option" || kind == "invitation"
  }

  /** `generatePrompt(type, context)`: one template per known type, `''`
      for any other type whatever the context, and a TypeError for a known
      type whose context is undefined or `null`. */
  function GeneratePrompt(kind: string, context: Option<Context>, stringify: Json -> string): (r: Outcome<string>)
    ensures !KnownKind(kind) ==> r == Value("")
    ensures r.Throws? <==> KnownKind(kind) && context.None?
  {
    if KnownKind(kind) && context.None? then Throws(ContextUndefined)
    else
      var c := context.GetOr(EmptyContext);
      if kind == "dates" then
        Value(DatesPromptStart + Render(c.title) + DatesPromptEnd)
      else if kind == "locations" then
        Value(LocationsPromptStart + Render(c.title) + LocationsPromptMiddle + Render(c.description)
              + LocationsPromptEnd)
      else if kind == "best-option" then
        Value(BestOptionPromptStart + RenderJson(c.votes, stringify) + BestOptionPromptEnd)
      else if kind == "invitation" then
        Value(InvitationPromptStart + Render(c.title) + InvitationPromptMiddle + Render(c.description)
              + InvitationPromptLink + Render(c.link) + InvitationPromptEnd)
      else
        Value("")
  }

  /** `x` sits right after `a` in `a + x + b`. */
  lemma OccursBetween(a: string, x: string, b: string)
    ensures OccursAt(x, a + x + b, |a|)
  {
    assert (a + x + b)[|a|..|a| + |x|] == x;
  }

  /** The `dates` prompt embeds the title after a fixed lead-in. */
  lemma DatesPromptEmbedsTitle(c: Context, stringify: Json -> string)
    ensures OccursAt(Render(c.title), GeneratePrompt("dates", Some(c), stringify).value, |DatesPromptStart|)
  {
    OccursBetween(DatesPromptStart, Render(c.title), DatesPromptEnd);
  }

  /** `x` and `y` sit at their places in `a + x + b + y + c`. */
  lemma OccursInTwoSlots(a: string, x: string, b: string, y: string, c: string)
    ensures OccursAt(x, a + x + b + y + c, |a|)
    ensures OccursAt(y, a + x + b + y + c, |a| + |x| + |b|)
  {
    var p := a + x + b + y + c;
    assert p[|a|..|a| + |x|] == x;
    assert p[|a| + |x| + |b|..|a| + |x| + |b| + |y|] == y;
  }

  /** `x`, `y` and `z` sit at their places in `a + x + b + y + c + z + d`. */
  lemma OccursInThreeSlots(a: string, x: string, b: string, y: string, c: string, z: string, d: string)
    ensures OccursAt(x, a + x + b + y + c + z + d, |a|)
    ensures OccursAt(y, a + x + b + y + c + z + d, |a| + |x| + |b|)
    ensures OccursAt(z, a + x + b + y + c + z + d, |a| + |x| + |b| + |y| + |c|)
  {
    var p := a + x + b + y + c + z + d;
    assert p[|a|..|a| + |x|] == x;
    assert p[|a| + |x| + |b|..|a| + |x| + |b| + |y|] == y;
    assert p[|a| + |x| + |b| + |y| + |c|..|a| + |x| + |b| + |y| + |c| + |z|] == z;
  }

  /** The `locations` prompt embeds the title and then the description. */
  lemma LocationsPromptEmbedsTitleAndDescription(c: Context, stringify: Json -> string)
    ensures var p := GeneratePrompt("locations", Some(c), stringify).value;
      && OccursAt(Render(c.title), p, |LocationsPromptStart|)
      && OccursAt(Render(c.description), p, |LocationsPromptStart| + |Render(c.title)| + |LocationsPromptMiddle|)
  {
    OccursInTwoSlots(LocationsPromptStart, Render(c.title), LocationsPromptMiddle, Render(c.description),
                     LocationsPromptEnd);
  }

  /** The `best-option` prompt embeds the serialised votes. */
  lemma BestOptionPromptEmbedsVotes(c: Context, stringify: Json -> string)
    ensures OccursAt(RenderJson(c.votes, stringify), GeneratePrompt("best-option", Some(c), stringify).value,
                     |BestOptionPromptStart|)
  {
    OccursBetween(BestOptionPromptStart, RenderJson(c.votes, stringify), BestOptionPromptEnd);
  }

  /** The `invitation` prompt embeds title, description and link, in that
      order. */
  lemma InvitationPromptEmbedsTitleDescriptionLink(c: Context, stringify: Json -> string)
    ensures var p := GeneratePrompt("invitation", Some(c), stringify).value;
      var t, d := Render(c.title), Render(c.description);
      && OccursAt(t, p, |InvitationPromptStart|)
      && OccursAt(d, p, |InvitationPromptStart| + |t| + |InvitationPromptMiddle|)
      && OccursAt(Render(c.link), p, |InvitationPromptStart| + |t| + |InvitationPromptMiddle| + |d|
                                     + |InvitationPromptLink|)
  {
    OccursInThreeSlots(InvitationPromptStart, Render(c.title), InvitationPromptMiddle, Render(c.description),
                       InvitationPromptLink, Render(c.link), InvitationPromptEnd);
  }

  // ---------------------------------------------------------------------
  // getDefaultSuggestions

  const DefaultLocations: seq<string> := ["Kawiarnia w centrum", "Sala konferencyjna", "Online (Zoom/Meet)"]
  const BestOptionDefault := "Na podstawie głosów, zalecamy wybranie opcji z największą liczbą głosów \"Tak\"."
  const InvitationStart := "Witaj! Zapraszam Cię do udziału w planowaniu spotkania \""
  const InvitationMiddle := "\". Kliknij w link i zagłosuj na swoje preferowane terminy i lokalizacje: "

  /** The three default dates: 3, 6 and 9 days from now, each at
      14:00:00.000. */
  function DefaultDates(): (r: seq<Slot>)
    ensures |r| == 3
    ensures forall k :: 0 <= k < 3 ==> r[k] == Slot(3 * (k + 1), 14, 0, 0, 0)
  {
    seq(3, k requires 0 <= k < 3 => Slot(3 * (k + 1), 14, 0, 0, 0))
  }

  /** The `for (let i = 1; i <= 3; i++)` loop that pushes one date per
      round, the date moved `i * 3` days and set to 14:00:00.000. */
  method BuildDefaultDates() returns (suggestions: seq<Slot>)
    ensures suggestions == DefaultDates()
    ensures |suggestions| == 3
    ensures forall k :: 0 <= k < |suggestions| ==>
      suggestions[k].dayOffset == 3 * (k + 1) && suggestions[k].hour == 14
      && suggestions[k].minute == 0 && suggestions[k].second == 0 && suggestions[k].millisecond == 0
  {
    suggestions := [];
    for i := 1 to 4
      invariant |suggestions| == i - 1
      invariant forall k :: 0 <= k < |suggestions| ==> suggestions[k] == Slot(3 * (k + 1), 14, 0, 0, 0)
    {
      var date := Slot(i * 3, 0, 0, 0, 0);
      date := date.(hour := 14, minute := 0, second := 0, millisecond := 0);
      suggestions := suggestions + [date];
    }
  }

  /** The default for a type when `context` is an object (`{}` at least). */
  function DefaultFor(kind: string, context: Context): (r: Suggestion)
    ensures r.Dates? <==> kind == "dates"
    ensures r.Message? <==> kind == "best-option" || kind == "invitation"
    ensures r.Names? && r.names != [] <==> kind == "locations"
    ensures !r.Parsed?
  {
    if kind == "dates" then Dates(DefaultDates())
    else if kind == "locations" then Names(DefaultLocations)
    else if kind == "best-option" then Message(BestOptionDefault)
    else if kind == "invitation" then
      Message(InvitationStart + Render(context.title) + InvitationMiddle + Render(context.link))
    else Names([])
  }

  /** `getDefaultSuggestions(type, context)`: with no context only the
      invitation template reads it, and throws. */
  function DefaultSuggestions(kind: string, context: Option<Context>): (r: Outcome<Suggestion>)
    ensures r.Throws? <==> context.None? && kind == "invitation"
    ensures r.Value? ==> r.value == DefaultFor(kind, context.GetOr(EmptyContext))
  {
    if context.None? && kind == "invitation" then Throws(ContextUndefined)
    else Value(DefaultFor(kind, context.GetOr(EmptyContext)))
  }

  /** The fixed defaults: the location list, the static best-option text
      (the same whatever the votes), `[]` for an unknown type, and an
      invitation with `context.title` right after a fixed lead-in and
      `context.link` at the very end. */
  lemma DefaultContents(kind: string, context: Context)
    ensures kind == "dates" ==> DefaultFor(kind, context) == Dates(DefaultDates())
    ensures kind == "locations" ==> DefaultFor(kind, context) == Names(DefaultLocations)
    ensures kind == "best-option" ==> DefaultFor(kind, context) == Message(BestOptionDefault)
    ensures !KnownKind(kind) ==> DefaultFor(kind, context) == Names([])
    ensures kind == "invitation" ==>
      var text := DefaultFor(kind, context).text;
      var t, l := Render(context.title), Render(context.link);
      && DefaultFor(kind, context).Message?
      && OccursAt(t, text, |InvitationStart|)
      && |text| == |InvitationStart| + |t| + |InvitationMiddle| + |l|
      && OccursAt(l, text, |text| - |l|)
  {
    if kind == "invitation" {
      var t, l := Render(context.title), Render(context.link);
      var text := InvitationStart + t + InvitationMiddle + l;
      assert text[|InvitationStart|..|InvitationStart| + |t|] == t;
      assert text[|text| - |l|..] == l;
    }
  }

  /** Only a missing context with the invitation type throws; for every
      other case the default does not depend on whether the context was
      missing or `{}`. */
  lemma DefaultWithoutContext(kind: string)
    ensures DefaultSuggestions(kind, None).Throws? <==> kind == "invitation"
    ensures kind != "invitation" ==> DefaultSuggestions(kind, None) == Value(DefaultFor(kind, EmptyContext))
  {
  }

  // ---------------------------------------------------------------------
  // parseSuggestions

  /** The first position of `c` in `s`. */
  function FirstIndex(s: string, c: char): (r: Option<nat>)
    ensures r.Some? ==> r.value < |s| && s[r.value] == c && forall i :: 0 <= i < r.value ==> s[i] != c
    ensures r.None? ==> forall i :: 0 <= i < |s| ==> s[i] != c
  {
    if s == [] then None
    else if s[0] == c then Some(0)
    else
      var rest := FirstIndex(s[1..], c);
      if rest.Some? then Some(rest.value + 1) else None
  }

  /** The last position of `c` in `s`. */
  function LastIndex(s: string, c: char): (r: Option<nat>)
    ensures r.Some? ==> r.value < |s| && s[r.value] == c && forall i :: r.value < i < |s| ==> s[i] != c
    ensures r.None? ==> forall i :: 0 <= i < |s| ==> s[i] != c
  {
    if s == [] then None
    else if s[|s| - 1] == c then Some(|s| - 1)
    else LastIndex(s[..|s| - 1], c)
  }

  /** `content.match(/\[.*\]/s)`: the dot also matches line breaks, and the
      greedy star makes the match run from the first `[` to the last `]`. */
  function BracketSpan(content: string): (r: Option<string>)
    ensures r.Some? ==> 2 <= |r.value| <= |content| && r.value[0] == '[' && r.value[|r.value| - 1] == ']'
  {
    var open, close := FirstIndex(content, '['), LastIndex(content, ']');
    if open.Some? && close.Some? && open.value < close.value then
      Some(content[open.value..close.value + 1])
    else
      None
  }

  /** `[` at `i` and `]` at `j` after it. */
  predicate BracketPair(content: string, i: int, j: int) {
    0 <= i < j < |content| && content[i] == '[' && content[j] == ']'
  }

  /** There is a span exactly when some `[` comes before some `]`. */
  lemma BracketSpanExists(content: string)
    ensures BracketSpan(content).Some? <==> exists i, j :: BracketPair(content, i, j)
  {
    var open, close := FirstIndex(content, '['), LastIndex(content, ']');
    if exists i, j :: BracketPair(content, i, j) {
      var i, j :| BracketPair(content, i, j);
      assert open.Some? && open.value <= i;
      assert close.Some? && j <= close.value;
    }
    if BracketSpan(content).Some? {
      assert BracketPair(content, open.value, close.value);
    }
  }

  /** The span starts at the first `[` of the content, ends at its last
      `]`, and holds whatever lies between, line breaks included. */
  lemma BracketSpanBounds(content: string)
    requires BracketSpan(content).Some?
    ensures exists i, j ::
      && BracketPair(content, i, j)
      && BracketSpan(content).value == content[i..j + 1]
      && (forall k :: 0 <= k < i ==> content[k] != '[')
      && (forall k :: j < k < |content| ==> content[k] != ']')
  {
    var i, j := FirstIndex(content, '[').value, LastIndex(content, ']').value;
    assert BracketPair(content, i, j);
    assert BracketSpan(content).value == content[i..j + 1];
  }

  /** `parseSuggestions(content, type)`: the span through `JSON.parse`, or,
      when the content is not a string, has no span or the span does not
      parse, the default for the type with an empty context (the `catch`
      and the final `return`).  It is applied to every type. */
  function ParseSuggestions(content: Option<string>, kind: string, parse: string -> Option<Json>): (r: Suggestion)
    ensures r.Parsed? ==> content.Some? && BracketSpan(content.value).Some?
                          && parse(BracketSpan(content.value).value) == Some(r.value)
    ensures !r.Parsed? ==> r == DefaultFor(kind, EmptyContext)
  {
    if content.None? then DefaultFor(kind, EmptyContext)
    else
      var span := BracketSpan(content.value);
      if span.Some? && parse(span.value).Some? then Parsed(parse(span.value).value)
      else DefaultFor(kind, EmptyContext)
  }

  /** Content that is not a string, or has no span, never reaches the
      parser: the result is then the default whatever the parser would say.
      With a span it is the parser's value or the default, for every type
      alike. */
  lemma ParseSpec(content: Option<string>, kind: string, parse: string -> Option<Json>, other: string -> Option<Json>)
    ensures content.None? ==>
      ParseSuggestions(content, kind, parse) == ParseSuggestions(content, kind, other) == DefaultFor(kind, EmptyContext)
    ensures content.Some? && BracketSpan(content.value).None? ==>
      ParseSuggestions(content, kind, parse) == ParseSuggestions(content, kind, other) == DefaultFor(kind, EmptyContext)
    ensures content.Some? && BracketSpan(content.value).Some? && parse(BracketSpan(content.value).value).Some? ==>
      ParseSuggestions(content, kind, parse) == Parsed(parse(BracketSpan(content.value).value).value)
    ensures content.Some? && BracketSpan(content.value).Some? && parse(BracketSpan(content.value).value).None? ==>
      ParseSuggestions(content, kind, parse) == DefaultFor(kind, EmptyContext)
  {
  }

  /** The parse fallback uses `{}`, so an invitation falling back there
      loses the request's title and link: both read `undefined`. */
  lemma InvitationParseFallbackLosesContext(content: Option<string>, parse: string -> Option<Json>)
    requires content.None? || BracketSpan(content.value).None?
    ensures ParseSuggestions(content, "invitation", parse)
      == Message(InvitationStart + "undefined" + InvitationMiddle + "undefined")
  {
  }

  // ---------------------------------------------------------------------
  // POST

  /** The handler.  `body == None` is a request whose JSON could not be
      read or is `null`, where destructuring throws; `apiKeyConfigured` stands for
      `process.env.OPENAI_API_KEY`; `chat` is the reply the service gives to
      a prompt. */
  method Post(body: Option<SuggestBody>, apiKeyConfigured: bool, chat: string -> Reply,
              stringify: Json -> string, parse: string -> Option<Json>)
    returns (resp: SuggestResponse)
    ensures resp.isAiGenerated <==>
      && body.Some? && apiKeyConfigured
      && GeneratePrompt(body.value.kind, body.value.context, stringify).Value?
      && chat(GeneratePrompt(body.value.kind, body.value.context, stringify).value).Content?
    ensures resp.isAiGenerated ==>
      var b := body.value;
      resp.suggestions == ParseSuggestions(chat(GeneratePrompt(b.kind, b.context, stringify).value).text, b.kind, parse)
    ensures !resp.isAiGenerated && body.Some? ==>
      resp.suggestions == DefaultFor(body.value.kind, body.value.context.GetOr(EmptyContext))
    // an OK reply whose content is not a string still counts as generated
    ensures body.Some? && apiKeyConfigured && GeneratePrompt(body.value.kind, body.value.context, stringify).Value?
            && chat(GeneratePrompt(body.value.kind, body.value.context, stringify).value) == Content(None) ==>
      resp == SuggestResponse(DefaultFor(body.value.kind, EmptyContext), true)
    ensures body.None? ==> resp == SuggestResponse(Names([]), false)
  {
    if body.None? {
      // catch: getDefaultSuggestions('', {})
      var fallback := DefaultSuggestions("", Some(EmptyContext));
      return SuggestResponse(fallback.value, false);
    }
    var kind, context := body.value.kind, body.value.context;
    if !apiKeyConfigured {
      var defaults := DefaultSuggestions(kind, context);
      if defaults.Throws? {
        return Fallback(kind, context);
      }
      return SuggestResponse(defaults.value, false);
    }
    var prompt := GeneratePrompt(kind, context, stringify);
    if prompt.Throws? {
      return Fallback(kind, context);
    }
    var reply := chat(prompt.value);
    if !reply.Content? {
      return Fallback(kind, context);
    }
    var suggestions := ParseSuggestions(reply.text, kind, parse);
    return SuggestResponse(suggestions, true);
  }

  /** The catch branch: `getDefaultSuggestions(body?.type || '', body?.context || {})`. */
  function Fallback(kind: string, context: Option<Context>): (r: SuggestResponse)
    ensures !r.isAiGenerated
    ensures r.suggestions == DefaultFor(kind, context.GetOr(EmptyContext))
  {
    var defaults := DefaultSuggestions(kind, Some(context.GetOr(EmptyContext)));
    SuggestResponse(defaults.value, false)
  }
}
