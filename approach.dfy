/** The retrieve-then-read run: plan and issue the search, format the hits,
    assemble the prompt, ask the completion service, and enrich its first
    choice with the data points, the trace and the session state. The three
    services are parameters: `embed`, `search` and `complete`. */
module Approach {
  import opened Wrappers
  import opened Request
  import opened Retrieval
  import opened Sources
  import opened Prompt

  const MaxTokens := 1024
  const CompletionCount := 1

  /** The arguments of the chat-completion call. */
  datatype CompletionRequest = CompletionRequest(
    model: string,
    messages: seq<Message>,
    temperature: Temperature,
    maxTokens: int,
    n: int)

  /** The `context` attached to the first choice. */
  datatype ExtraInfo = ExtraInfo(dataPoints: seq<string>, thoughts: string)

  /** A completion choice; `context` and `sessionState` are the keys the
      approach adds (`None` while absent). */
  datatype Choice<S> = Choice(message: Message, context: Option<ExtraInfo>, sessionState: Option<S>)

  datatype Completion<S> = Completion(choices: seq<Choice<S>>)

  /** Ways a run fails: no messages to take the question from, a hit without
      captions while captions are used, a completion with no choices. */
  datatype Failure = NoQuestion | CaptionsMissing | NoChoices

  /** What a successful run did: what it asked to be embedded, the search
      call it issued, the completion it requested, and the response. */
  datatype Outcome<S> = Outcome(
    embeddingInput: Option<EmbeddingRequest>,
    search: SearchCall,
    request: CompletionRequest,
    response: Completion<S>)

  /** The completion call for a prompt: the chat model, the prompt, the
      override temperature or 0.3, at most 1024 tokens, one choice. */
  function RequestFor(cfg: Config, o: Overrides, messages: seq<Message>): (r: CompletionRequest)
    ensures r.model == cfg.chatgptModel && r.messages == messages
    ensures r.temperature.value != 0.0
    ensures r.temperature == DefaultTemperature || o.temperature == Given(r.temperature)
    ensures r.maxTokens == 1024 && r.n == 1
  {
    CompletionRequest(cfg.chatgptModel, messages, SamplingTemperature(o), MaxTokens, CompletionCount)
  }

  const ThoughtsQuestion := "Question:<br>"
  const ThoughtsPrompt := "<br><br>Prompt:<br>"

  /** The trace shown to the user: the query text sent to the index, then
      every prompt message rendered by `dump` (Python's `str` of a message),
      separated by blank lines. */
  function Thoughts(queryText: string, messages: seq<Message>, dump: Message -> string): (r: string)
    ensures ThoughtsQuestion + queryText <= r
  {
    var rendered := seq(|messages|, i requires 0 <= i < |messages| => dump(messages[i]));
    var trace := ThoughtsQuestion + queryText + ThoughtsPrompt + Join("\n\n", rendered);
    assert trace[..|ThoughtsQuestion + queryText|] == ThoughtsQuestion + queryText;
    trace
  }

  /** Attaches `info` and the session state to the first choice and leaves
      everything else as it was; indexing the first choice of an empty list
      fails. */
  function Enrich<S>(c: Completion<S>, info: ExtraInfo, state: S): (r: Result<Completion<S>, Failure>)
    ensures r.Err? <==> |c.choices| == 0
    ensures r.Err? ==> r.error == NoChoices
    ensures r.Ok? ==> |r.value.choices| == |c.choices|
    ensures r.Ok? ==> r.value.choices[0].message == c.choices[0].message
    ensures r.Ok? ==> r.value.choices[0].context == Some(info)
    ensures r.Ok? ==> r.value.choices[0].sessionState == Some(state)
    ensures r.Ok? ==> forall i :: 1 <= i < |c.choices| ==> r.value.choices[i] == c.choices[i]
  {
    if |c.choices| == 0 then Err(NoChoices)
    else
      var first := c.choices[0].(context := Some(info), sessionState := Some(state));
      Ok(c.(choices := c.choices[0 := first]))
  }

  /** The question: the content of the last message. */
  function Question(history: seq<Message>): string
    requires |history| > 0
  {
    history[|history| - 1].content
  }

  /** Only the last message is read: whatever comes before it, the question
      is that message's content. */
  lemma OnlyLastMessageAsked(earlier: seq<Message>, history: seq<Message>)
    requires |history| > 0
    ensures Question(earlier + history) == Question(history) == history[|history| - 1].content
  {
  }

  /** One run of the approach, as a function of its inputs and of the answers
      of the three services. */
  function RunSpec<S>(
    history: seq<Message>, sessionState: S, o: Overrides, cfg: Config, filter: Option<string>,
    embed: EmbeddingRequest -> Embedding, search: SearchCall -> seq<Hit>,
    complete: CompletionRequest -> Completion<S>, dump: Message -> string): (r: Result<Outcome<S>, Failure>)
    ensures r == Err(NoQuestion) <==> |history| == 0
    ensures r.Ok? ==> |history| > 0 && r.value.search == SearchFor(Question(history), o, cfg, filter, embed)
    ensures r.Ok? ==> r.value.request == RequestFor(cfg, o, r.value.request.messages)
    ensures r.Ok? ==> |r.value.request.messages| == 4 && r.value.request.messages[0] == Message(System, SystemText(o))
    ensures r.Ok? ==> |r.value.response.choices| > 0 && r.value.response.choices[0].sessionState == Some(sessionState)
  {
    if |history| == 0 then Err(NoQuestion)
    else
      var q := Question(history);
      var call := SearchFor(q, o, cfg, filter, embed);
      match FormatSources(search(call), ResolveModes(o).useSemanticCaptions)
      case None => Err(CaptionsMissing)
      case Some(results) =>
        var messages := PromptFor(SystemText(o), UserContent(q, Content(results)));
        var request := RequestFor(cfg, o, messages);
        var info := ExtraInfo(results, Thoughts(call.text, messages, dump));
        match Enrich(complete(request), info, sessionState)
        case Err(e) => Err(e)
        case Ok(response) => Ok(Outcome(EmbeddingInput(q, o, cfg), call, request, response))
  }

  /** The run step by step: embed when vector search is on, search, format,
      build the prompt by appends, complete, and enrich the first choice in
      place of the old one. */
  method Run<S>(
    history: seq<Message>, sessionState: S, o: Overrides, cfg: Config, filter: Option<string>,
    embed: EmbeddingRequest -> Embedding, search: SearchCall -> seq<Hit>,
    complete: CompletionRequest -> Completion<S>, dump: Message -> string)
    returns (r: Result<Outcome<S>, Failure>)
    ensures r == RunSpec(history, sessionState, o, cfg, filter, embed, search, complete, dump)
  {
    if |history| == 0 {
      return Err(NoQuestion);
    }
    var q := history[|history| - 1].content;
    var modes := ResolveModes(o);
    var embeddingRequest: Option<EmbeddingRequest> := None;
    var queryVector: Option<Embedding> := None;
    if modes.hasVector {
      embeddingRequest := Some(EmbeddingRequest(cfg.embeddingModel, q));
      queryVector := Some(embed(embeddingRequest.value));
    }
    var call := PlanSearch(q, o, cfg, filter, queryVector);
    var formatted := FormatSources(search(call), modes.useSemanticCaptions);
    if formatted.None? {
      return Err(CaptionsMissing);
    }
    var results := formatted.value;
    var messages := AssemblePrompt(SystemText(o), UserContent(q, Join("\n", results)), cfg.chatgptModel);
    var request := CompletionRequest(cfg.chatgptModel, messages, SamplingTemperature(o), MaxTokens, CompletionCount);
    var completion := complete(request);
    if |completion.choices| == 0 {
      return Err(NoChoices);
    }
    var info := ExtraInfo(results, Thoughts(call.text, messages, dump));
    var first := completion.choices[0].(context := Some(info), sessionState := Some(sessionState));
    var response := completion.(choices := completion.choices[0 := first]);
    r := Ok(Outcome(embeddingRequest, call, request, response));
  }

  /** A run fails for want of a question exactly when there are no messages;
      it fails on captions exactly when captions are used and a hit lacks
      them; otherwise it fails only when the completion has no choices. */
  lemma RunFailures<S>(
    history: seq<Message>, sessionState: S, o: Overrides, cfg: Config, filter: Option<string>,
    embed: EmbeddingRequest -> Embedding, search: SearchCall -> seq<Hit>,
    complete: CompletionRequest -> Completion<S>, dump: Message -> string)
    ensures RunSpec(history, sessionState, o, cfg, filter, embed, search, complete, dump) == Err(NoQuestion)
        <==> |history| == 0
    ensures |history| > 0 ==>
      (RunSpec(history, sessionState, o, cfg, filter, embed, search, complete, dump) == Err(CaptionsMissing) <==>
       (ResolveModes(o).useSemanticCaptions &&
        exists h :: h in search(SearchFor(Question(history), o, cfg, filter, embed)) && h.captions.None?))
    ensures (|history| > 0 && forall r :: |complete(r).choices| > 0) ==>
      (RunSpec(history, sessionState, o, cfg, filter, embed, search, complete, dump).Ok? <==>
       (!ResolveModes(o).useSemanticCaptions ||
        forall h :: h in search(SearchFor(Question(history), o, cfg, filter, embed)) ==> h.captions.Some?))
  {
  }

  /** What a successful run sends and returns: the search call of the
      question, the four-message prompt built from the formatted hits, the
      completion arguments, and the response whose first choice carries the
      formatted hits as data points, the trace, and the caller's session
      state, unchanged, with every other choice untouched. */
  lemma RunOutcome<S>(
    history: seq<Message>, sessionState: S, o: Overrides, cfg: Config, filter: Option<string>,
    embed: EmbeddingRequest -> Embedding, search: SearchCall -> seq<Hit>,
    complete: CompletionRequest -> Completion<S>, dump: Message -> string)
    requires RunSpec(history, sessionState, o, cfg, filter, embed, search, complete, dump).Ok?
    ensures |history| > 0
    ensures var out := RunSpec(history, sessionState, o, cfg, filter, embed, search, complete, dump).value;
      && out.embeddingInput == EmbeddingInput(Question(history), o, cfg)
      && out.search == SearchFor(Question(history), o, cfg, filter, embed)
      && FormatSources(search(out.search), ResolveModes(o).useSemanticCaptions).Some?
      && var lines := FormatSources(search(out.search), ResolveModes(o).useSemanticCaptions).value;
      && |lines| == |search(out.search)|
      && out.request.messages == PromptFor(SystemText(o), UserContent(Question(history), Content(lines)))
      && out.request.model == cfg.chatgptModel
      && out.request.temperature == SamplingTemperature(o)
      && out.request.maxTokens == 1024 && out.request.n == 1
      && |out.response.choices| == |complete(out.request).choices| > 0
      && out.response.choices[0].message == complete(out.request).choices[0].message
      && out.response.choices[0].context.Some?
      && out.response.choices[0].context.value.dataPoints == lines
      && ThoughtsQuestion + out.search.text <= out.response.choices[0].context.value.thoughts
      && out.response.choices[0].sessionState == Some(sessionState)
      && forall i :: 1 <= i < |out.response.choices| ==> out.response.choices[i] == complete(out.request).choices[i]
  {
  }

  /** Three hits from info1.txt, info2.pdf and info3.pdf without captions:
      three data points, one per hit in hit order, each prefixed with its
      source page, the sources block reads back as those three lines, and the
      completion gets four messages. */
  lemma ThreeSourcesScenario<S>(
    sessionState: S, o: Overrides, cfg: Config, filter: Option<string>,
    embed: EmbeddingRequest -> Embedding, search: SearchCall -> seq<Hit>,
    complete: CompletionRequest -> Completion<S>, dump: Message -> string,
    c1: string, c2: string, c3: string)
    requires !Enabled(o.semanticCaptions)
    requires forall call :: search(call) == [Hit("info1.txt", c1, None), Hit("info2.pdf", c2, None), Hit("info3.pdf", c3, None)]
    requires forall r :: |complete(r).choices| > 0
    ensures var history := [Message(User, "What are common structured database systems?")];
      var r := RunSpec(history, sessionState, o, cfg, filter, embed, search, complete, dump);
      && r.Ok?
      && var points := r.value.response.choices[0].context.value.dataPoints;
      && |points| == 3
      && "info1.txt" + SourceSeparator <= points[0]
      && "info2.pdf" + SourceSeparator <= points[1]
      && "info3.pdf" + SourceSeparator <= points[2]
      && Split(Content(points), '\n') == points
      && |r.value.request.messages| == 4
  {
    var history := [Message(User, "What are common structured database systems?")];
    var hits := [Hit("info1.txt", c1, None), Hit("info2.pdf", c2, None), Hit("info3.pdf", c3, None)];
    var r := RunSpec(history, sessionState, o, cfg, filter, embed, search, complete, dump);
    RunFailures(history, sessionState, o, cfg, filter, embed, search, complete, dump);
    assert r.Ok?;
    RunOutcome(history, sessionState, o, cfg, filter, embed, search, complete, dump);
    assert search(r.value.search) == hits;
    ThreeHitsFormatted(c1, c2, c3);
    assert r.value.response.choices[0].context.value.dataPoints == FormatSources(hits, false).value;
  }

  /** The formatting half of the three-sources scenario. */
  lemma ThreeHitsFormatted(c1: string, c2: string, c3: string)
    ensures var hits := [Hit("info1.txt", c1, None), Hit("info2.pdf", c2, None), Hit("info3.pdf", c3, None)];
      && FormatSources(hits, false).Some?
      && var points := FormatSources(hits, false).value;
      && |points| == 3
      && "info1.txt" + SourceSeparator <= points[0]
      && "info2.pdf" + SourceSeparator <= points[1]
      && "info3.pdf" + SourceSeparator <= points[2]
      && Split(Content(points), '\n') == points
  {
    var hits := [Hit("info1.txt", c1, None), Hit("info2.pdf", c2, None), Hit("info3.pdf", c3, None)];
    var points := FormatSources(hits, false).value;
    assert points[0] == FormatHit(hits[0], false).value;
    assert points[1] == FormatHit(hits[1], false).value;
    assert points[2] == FormatHit(hits[2], false).value;
    assert '\n' !in hits[0].sourcepage && '\n' !in hits[1].sourcepage && '\n' !in hits[2].sourcepage;
    ContentLines(hits, false);
  }

  /** No hits: the run still asks for a completion, the sources block is
      empty, the user message is the question followed by the bare sources
      header, and the data points are empty. */
  lemma NoHitsScenario<S>(
    history: seq<Message>, sessionState: S, o: Overrides, cfg: Config, filter: Option<string>,
    embed: EmbeddingRequest -> Embedding, search: SearchCall -> seq<Hit>,
    complete: CompletionRequest -> Completion<S>, dump: Message -> string)
    requires |history| > 0
    requires forall call :: search(call) == []
    requires forall r :: |complete(r).choices| > 0
    ensures var r := RunSpec(history, sessionState, o, cfg, filter, embed, search, complete, dump);
      && r.Ok?
      && r.value.request.messages[1] == Message(User, Question(history) + "\nSources:\n ")
      && r.value.response.choices[0].context.value.dataPoints == []
  {
  }
}
