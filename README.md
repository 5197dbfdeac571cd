# Retrieve-then-read approach, modelled in Dafny

This project models `RetrieveThenReadApproach.run` of the Azure search + OpenAI
demo backend. Given a chat history, an overrides bag and the answers of three
services (embedding, search index, chat completion), the run does five things:

- It decides whether to search by text, by vector or both (hybrid).
- It issues one search call: semantic or plain, with or without captions, with or without a query vector.
- It formats every hit as `"<sourcepage>: <text>"`.
- It builds a four-message prompt.
- It asks for one completion and attaches the data points, a trace and the caller's session state to the first choice.

Modules, one per component of the run:

- `Wrappers` (wrappers.dfy): `Option` and `Result`.
- `Request` (request.dfy): the overrides bag and the approach's configuration. Each override is an `Entry`: `Missing`, `Null` or `Given(v)`. This follows `dict.get`, which tells a missing key from an explicit null (`overrides.get("top", 3)` gives 3 only for a missing key). Also the `top` and temperature defaults.
- `Retrieval` (retrieval.dfy): mode resolution, the embedding decision and the search call.
- `Sources` (sources.dfy): newline collapsing, `str.join`, `str.split` as a reference for reading lines back, and hit formatting.
- `Prompt` (prompt.dfy): the three prompt constants, the system-text choice, a `MessageBuilder` class whose message list grows by appends, and the prompt assembly method.
- `Approach` (approach.dfy): the completion arguments, the enrichment of the first choice, the whole run as a function (`RunSpec`) and as a step-by-step method (`Run`), and end-to-end lemmas.

The services are function parameters: `embed: EmbeddingRequest -> Embedding` (the request names the configured embedding model and the text), `search: SearchCall -> seq<Hit>` and `complete: CompletionRequest -> Completion<S>`. `S` is the type of the caller's opaque session state.

Behaviours of the code worth noting:

- A `retrieval_mode` of `"default"`, or any other unrecognised string, switches BOTH text and vector search off. Only a missing or null mode means hybrid. The request then searches with empty text and no vector (`Retrieval.UnrecognisedModeSearchesNothing`).
- Captions are used whenever `semantic_captions` is on and text search is on, whether or not the semantic ranker is on. The plain query does not ask the index for captions, yet the formatter still reads them (`Retrieval.CaptionsWithoutRanker`). A hit without captions then makes the run fail (`Failure.CaptionsMissing`). The content field is never used as a fallback.
- The vector top-k of 50 and the vector field are sent by both the semantic and the plain query, not only the semantic one. They depend on the truthiness of the vector (a non-empty list), not on the mode.
- `overrides.get("temperature") or 0.3` replaces a temperature of zero with 0.3, so the service is never asked for temperature zero (`Request.SamplingTemperature`).
- No token budgeting or truncation is visible in the run. The prompt always has exactly four messages.

## Model

All source paths are in `app/backend/approaches/retrievethenread.py`.

| member | source | states |
|---|---|---|
| `Request.Top` | app/backend/approaches/retrievethenread.py:89 | `top` is 3 when the key is missing, null when the key is null, and the given number otherwise |
| `Request.SamplingTemperature` | app/backend/approaches/retrievethenread.py:154 | the temperature is the override when it is given and non-zero, 0.3 otherwise; it is never zero |
| `Retrieval.ResolveModes` | app/backend/approaches/retrievethenread.py:86-88 | captions are used iff `semantic_captions` is on and text search is on; both searches iff the mode is unset or "hybrid"; text only iff "text"; vector only iff "vectors"; neither iff the mode is an unrecognised string |
| `Retrieval.ModeTable` | app/backend/approaches/retrievethenread.py:86-87 | all four outcomes of `retrieval_mode`, each as an iff: unset/"hybrid" gives both, "text" gives text only, "vectors" gives vector only, any other string gives neither |
| `Retrieval.EmbeddingInput` | app/backend/approaches/retrievethenread.py:93-98 | an embedding is requested exactly when vector search is on, and it asks for the question embedded with the configured embedding model |
| `Retrieval.QueryVector` | app/backend/approaches/retrievethenread.py:93-98 | the query vector is present exactly when vector search is on, and it is the service's embedding of the question under the configured model |
| `Retrieval.PlanSearch` | app/backend/approaches/retrievethenread.py:101-126 | query text is the question only with text search; semantic arguments ("default" configuration, configured language and speller) iff ranker and text search; caption mode iff semantic and captions; top-k 50 and field "embedding" iff the vector is non-empty; vector, filter and top passed through |
| `Retrieval.SearchFor` | app/backend/approaches/retrievethenread.py:93-126 | the search call of a request carries a vector iff vector search is on, and then the service's embedding of the question; its text is the question only with text search; it is semantic iff the ranker and text search are on |
| `Retrieval.TextModeSendsNoVector` | app/backend/approaches/retrievethenread.py:86-125 | mode "text": no embedding request, no vector, no top-k, no vector field, and the question as query text |
| `Retrieval.VectorsModeSendsNoText` | app/backend/approaches/retrievethenread.py:86-126 | mode "vectors": the question is embedded, the query text is empty, captions are off and the query is plain even with the ranker on |
| `Retrieval.UnsetModeIsHybrid` | app/backend/approaches/retrievethenread.py:86-101 | a missing or null mode: both searches on, the question is embedded, and the index gets both the question text and its vector |
| `Retrieval.UnrecognisedModeSearchesNothing` | app/backend/approaches/retrievethenread.py:86-126 | an unrecognised mode such as "default": no embedding, empty query text, no vector, plain query |
| `Retrieval.HybridSemanticQuery` | app/backend/approaches/retrievethenread.py:104-117 | ranker on in hybrid mode: semantic configuration "default" with the configured language and speller; top-k 50 and field "embedding" for a non-empty embedding |
| `Retrieval.CaptionsWithoutRanker` | app/backend/approaches/retrievethenread.py:88-133 | captions on, ranker off, text search on: the formatter uses captions although the issued query asks for none |
| `Sources.NoNewlines` | app/backend/approaches/retrievethenread.py:129-133 | the collapsed text has the same length, a space wherever the input had a line feed, every other character kept, and no line feed |
| `Sources.NoNewlinesIdempotent` | app/backend/approaches/retrievethenread.py:129-133 | collapsing newlines twice gives the same text as collapsing once |
| `Sources.SplitJoin` | app/backend/approaches/retrievethenread.py:134 | splitting a non-empty join on its separator gives back the joined parts when none contains the separator |
| `Sources.Join` | app/backend/approaches/retrievethenread.py:134 | a join of no parts is empty; a join starts with its first part; its length is the parts' total length plus one separator between each neighbouring pair |
| `Sources.FormatHit` | app/backend/approaches/retrievethenread.py:127-133 | a line exists iff captions are not used or the hit has captions; it starts with sourcepage + ": " and continues with the collapsed content, or the collapsed " . "-joined captions; it has a line feed iff the sourcepage has one |
| `Sources.HitText` | app/backend/approaches/retrievethenread.py:127-133 | a hit has no text iff captions are used and it has none; the text is the content field without captions, the " . "-joined caption texts with them |
| `Sources.FormatSources` | app/backend/approaches/retrievethenread.py:127-133 | fails iff some hit cannot be formatted; otherwise exactly one line per hit, line i being hit i's line |
| `Sources.ContentLines` | app/backend/approaches/retrievethenread.py:127-134 | when no sourcepage has a line feed, the "\n"-joined sources block read line by line is the list of formatted lines: as many lines as hits, in hit order |
| `Sources.Content` | app/backend/approaches/retrievethenread.py:134 | the sources block is empty for no lines, and when no line has a line feed it splits on "\n" back into exactly the lines |
| `Sources.NoHitsNoContent` | app/backend/approaches/retrievethenread.py:127-134 | zero hits give zero formatted lines and an empty sources block |
| `Prompt.SystemText` | app/backend/approaches/retrievethenread.py:136-138 | the system text is the template iff the template is a non-empty string, the default instruction otherwise; it is never empty |
| `Prompt.UserContent` | app/backend/approaches/retrievethenread.py:141 | the user message is the question, then "\nSources:\n ", then the sources block, which is recoverable as the rest after that header |
| `Prompt.MessageBuilder.constructor` | app/backend/approaches/retrievethenread.py:136-138 | a new builder holds just the system message |
| `Prompt.MessageBuilder.AppendMessage` | app/backend/approaches/retrievethenread.py:142-146 | appending adds one message at the end, keeps all earlier messages, and keeps the system message first |
| `Prompt.PromptFor` | app/backend/approaches/retrievethenread.py:136-148 | the prompt is four messages: system text, user message, then the few-shot answer (assistant) and the few-shot question (user) |
| `Prompt.AssemblePrompt` | app/backend/approaches/retrievethenread.py:136-148 | the messages built by the three appends are exactly system, user question with sources, few-shot answer, few-shot question |
| `Prompt.PromptOrder` | app/backend/approaches/retrievethenread.py:136-148 | for any overrides: four messages; the system text is first; then a user message beginning with the question and "\nSources:\n "; then the assistant shot; then the user shot |
| `Approach.Thoughts` | app/backend/approaches/retrievethenread.py:161-162 | the trace begins with "Question:<br>" followed by the query text sent to the index |
| `Approach.RequestFor` | app/backend/approaches/retrievethenread.py:149-157 | the completion call uses the chat model and the prompt, the override temperature or 0.3 (never zero), `max_tokens` 1024 and `n` 1 |
| `Approach.Enrich` | app/backend/approaches/retrievethenread.py:164-165 | fails iff there is no choice; otherwise the first choice gains the context and the session state, keeping its message, and every other choice is unchanged |
| `Approach.Run` | app/backend/approaches/retrievethenread.py:76-166 | the step-by-step run (embed when needed, search, format, build the prompt by appends, complete, update the first choice) gives the same result as `RunSpec` |
| `Approach.RunSpec` | app/backend/approaches/retrievethenread.py:76-166 | a run fails for want of a question iff the history is empty; a successful run issues the request's search call, requests the completion arguments of `RequestFor` over a four-message prompt led by the system text, and echoes the session state on the first choice |
| `Approach.OnlyLastMessageAsked` | app/backend/approaches/retrievethenread.py:83 | the question is the content of the last message, whatever messages come before it |
| `Approach.RunFailures` | app/backend/approaches/retrievethenread.py:83-165 | no-question failure iff the history is empty; captions failure iff captions are used and some hit has none; with a service that always returns a choice, the run succeeds iff no captions failure occurs |
| `Approach.RunOutcome` | app/backend/approaches/retrievethenread.py:83-165 | a successful run sends the planned search call and the four-message prompt over the formatted hits, with the chat model, the sampling temperature, 1024 max tokens and n = 1; the first choice carries the formatted lines as data points, a trace starting with the query text, and the caller's session state unchanged |
| `Approach.ThreeSourcesScenario` | app/backend/approaches/retrievethenread.py:127-157 | three uncaptioned hits from info1.txt, info2.pdf and info3.pdf: three data points in hit order with those prefixes, a sources block of exactly those three lines, and four prompt messages |
| `Approach.NoHitsScenario` | app/backend/approaches/retrievethenread.py:127-157 | zero hits: the run still completes, the user message is the question followed by "\nSources:\n ", and the data points are empty |

## Left out

- `MessageBuilder` ordering is an open question. Under plain append, which `Prompt.AssemblePrompt`, `Prompt.PromptFor` and `Prompt.PromptOrder` assume, the prompt ends with the canned few-shot question (line 146), so the completion would answer that question rather than the user's. The answer-then-question order of lines 145-146 reads naturally only if `append_message` inserts right after the system message, which would reverse the three appended messages. The prompt-order properties hold only under the plain-append assumption.
- The embedding, search and chat-completion calls (lines 95, 105, 119, 150) are function parameters. They always answer, so their failures are not modelled; the source propagates them unchanged. Async iteration over search results is not modelled either.
- The `openai_host == "azure"` deployment-id arguments (lines 94, 149) are client configuration and do not change the run's logic.
- `build_filter` (line 90) is defined in approaches/approach.py, which is not part of this model. Its result is an opaque `Option<string>` parameter passed through to the search call. `auth_claims` only feeds it.
- `MessageBuilder` is defined in core/messagebuilder.py, which is not part of this model. It is assumed to start with the system message and to append each message at the end, with no token budgeting and no rewriting of content. The prompt-order properties rest on this assumption.
- `nonewlines` is defined in text.py, which is not part of this model. It is assumed to replace each line feed with a space and change nothing else.
- Approach.Thoughts: states only the prefix "Question:<br>" + query text. The rendering of each message uses Python's `str` of a dict, which is a parameter `dump` here.
- Temperature is a real number compared with zero, not a binary floating-point value.
- Python truthiness is modelled only for the values the source expects. The semantic switches are booleans, `retrieval_mode` is a string (or missing or null), `top` is an integer, and `prompt_template` is a string.
- Hits carry their source page and content directly. The lookup by the configured field names (`doc[self.sourcepage_field]`, `doc[self.content_field]`) and its failure when a field is missing or is not a string are not modelled.
- `context.get("overrides", {})` is modelled by passing `Request.NoOverrides` when the caller sends none. The `stream` argument is ignored by the source and is not a parameter. Only the content of the last history message is read.
- The completion response is modelled only as its list of choices, each with its message and the two keys the run adds. Other response fields pass through untouched and are not modelled.
- locustfile.py (a load-test script) and app/frontend/src/components/Example/ExampleList.tsx (a fixed UI list) are not part of this model.
