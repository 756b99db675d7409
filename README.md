# PropertyLoop chatbot: routing and response building

This project models the deterministic layer of the PropertyLoop real-estate
chatbot. That layer sits around its language-model calls:

- the router that sends a turn to the property-issue handler, the tenancy
  handler or the clarification handler;
- the three handlers, each of which returns the graph state with only its own
  keys replaced;
- the markdown text the property-issue handler builds from a
  `PropertyIssueReport`;
- the chat page's turn, which builds the context sentence from the sidebar,
  composes the query, records the user's entry, builds the graph's initial
  state and records exactly one assistant entry.

Every model call is a function-valued parameter:

- `classify` is the router model's raw reply for a query;
- `analyze` is the structured report, or the text of the raised exception,
  for an image and its request text;
- `generate` is the streamed chunks, or the text of the raised exception,
  for a prompt;
- `graph` is the outcome of running the compiled graph on the initial state.

The environment's API key is an `Option<string>` parameter, and the tenancy
system prompt is an opaque `instruction` string.

Modules:

- `Wrappers`: `Option` and `Result`.
- `Text`: Python's `sep.join`, `str.split`, `"".join`, `str.strip`, `in` on
  strings and `str()` of a non-negative integer. Their lemmas are that
  splitting undoes joining, that stripping never changes whether a label is contained,
  and the decimal round trip.
- `Schemas`: the `PropertyIssueReport` record and its construction rules.
- `GraphState`: the state dictionary as a record, the routes and the history
  entries.
- `ReportFormat`: the report text. Its partner is `ParseReport`, which reads
  the text back. The central lemma is `FormatParseRoundTrip`.
- `Agents`: the router and the three handlers. The stream concatenation is a
  loop proved against `StreamText`.
- `ChatApp`: the sidebar context builder proved against `Details` and
  `ContextText`, the query, the history entries, and the `ChatSession` class
  whose `messages` field each turn appends to in place.

Three facts about the code shape the model:

- The router has exactly one destination per turn. Nothing merges outputs
  and nothing classifies safety keywords.
- A classification that contains both labels goes to clarification.
- `professional_referral` is a list of strings, not a flag.

## Model

| member | source | states |
|---|---|---|
| Agents.RouteQuery | real_estate_chatbot/agents.py:279-316 | only `next` changes and it is always set; `agent_1` exactly when image data is present (even empty); `agent_2` exactly when there is no image, the query is non-empty, and the stripped classification contains `TENANCY_FAQ` but not `PROPERTY_ISSUE` |
| Agents.RouteDecisionTable | real_estate_chatbot/agents.py:299-316 | without an image: an empty query gives clarification; on the raw model reply, `PROPERTY_ISSUE` gives clarification even with `TENANCY_FAQ` present; only `TENANCY_FAQ` gives agent_2; neither gives clarification (stripping changes nothing) |
| Agents.RouteIgnoresModelWithoutTextQuery | real_estate_chatbot/agents.py:292-299 | with an image or an empty query the result does not depend on the classifier at all |
| Agents.AskClarification | real_estate_chatbot/agents.py:318-353 | only `response` and `sender` change; sender is `clarification`; the photo request is given exactly for a non-empty query classified `PROPERTY_ISSUE`, the generic question otherwise |
| Agents.ImageRequestText | real_estate_chatbot/agents.py:130 | the text sent beside the image is never empty and is the query whenever the query is non-empty |
| Agents.RunAgent1 | real_estate_chatbot/agents.py:95-187 | only `response`, `sender`, `structured_response` change; sender `agent_1`; no image bytes gives the fixed request; a failed analysis gives the error sentence with the error text; a report gives its formatted text and is stored as the structured response, which changes only then |
| Agents.Agent1ResponseShowsReport | real_estate_chatbot/agents.py:152-180 | the response text of a successful analysis parses back to the stored structured report (single-line fields) |
| Agents.EmptyImageIsRequestedAgain | real_estate_chatbot/agents.py:113-118 | empty image bytes are routed to agent_1 by the `is not None` test and then get the "I need an image" response |
| Agents.FullQuery | real_estate_chatbot/agents.py:215-219 | without a non-empty location the query is unchanged; with one, the full query is the query, then exactly ` (Location: `, then the location, then `)` |
| Agents.TenancyPrompt | real_estate_chatbot/agents.py:240 | the prompt is the system instruction, then exactly `\n\nUser question: `, then the full query |
| Agents.StreamTextAppend | real_estate_chatbot/agents.py:257-264 | the text of a stream is the text of its first part followed by the text of its second |
| Agents.CollectStream | real_estate_chatbot/agents.py:257-264 | the loop's result is the in-order concatenation of the chunk texts, text-less chunks contributing nothing |
| Agents.RunAgent2 | real_estate_chatbot/agents.py:189-277 | only `response` and `sender` change; sender `agent_2`; an empty query gives the fixed request; a missing or empty key and any failure of the call give the tenancy error sentence; otherwise the response is the concatenated stream for the prompt |
| ReportFormat.SectionBody | real_estate_chatbot/agents.py:154-158 | an empty list gives the fallback sentence; a non-empty list gives text that starts with a `- ` list line |
| ReportFormat.FormatReport | real_estate_chatbot/agents.py:152-173 | the response text is exactly the lines heading, assessment, then for each of the three lists a blank line, its heading and its body lines (its `- ` items, or its fallback sentence), joined by newlines |
| ReportFormat.SectionRoundTrip | real_estate_chatbot/agents.py:154-158 | a formatted section reads back as its list and leaves the following lines untouched |
| ReportFormat.FormatParseRoundTrip | real_estate_chatbot/agents.py:152-173 | reading the formatted text back gives the same report, every field and order included, when each field fits on one line |
| Schemas.MissingFields | real_estate_chatbot/schemas.py:11-19 | each required field is named exactly when it was omitted, and at most once; `safety_warnings` is never named |
| Schemas.Validate | real_estate_chatbot/schemas.py:7-23 | construction succeeds exactly when the three required fields are present, copies them, and defaults `safety_warnings` to the empty list; otherwise it fails naming the missing fields |
| Schemas.FieldsOf | real_estate_chatbot/schemas.py:7-23 | a report constructed from all of its own fields is the same report |
| Text.SplitJoin | real_estate_chatbot/agents.py:156 | splitting newline-joined lines that hold no newline gives the lines back |
| Text.StripKeepsContains | real_estate_chatbot/agents.py:307-313 | for a label without whitespace, containment in the stripped text equals containment in the raw text |
| Text.DecimalRoundTrip | Chatbot/app.py:354 | the decimal text of the property age reads back as the age |
| ChatApp.ContextLocation | Chatbot/app.py:339 | the location is absent exactly when the session location is missing or empty, and otherwise it is the session location |
| ChatApp.Details | Chatbot/app.py:346-354 | the context holds exactly the shown details (a location, a type other than `Other`, an occupancy other than `Not applicable`, an age above 0) in the order location, type, occupancy, age |
| ChatApp.Render | Chatbot/app.py:348-354 | every context sentence starts with a space and ends with a full stop |
| ChatApp.BuildContext | Chatbot/app.py:346-354 | the successive appends build the rendered sentences of `Details`, in order |
| ChatApp.ContextTextEmpty | Chatbot/app.py:358 | the context text is empty exactly when no detail is shown |
| ChatApp.InputText | Chatbot/app.py:357 | the typed text is the user's input whenever that is present and non-empty, and empty exactly otherwise |
| ChatApp.EnhancedQuery | Chatbot/app.py:357-359 | the query always starts with the typed text; the context follows `\n\nAdditional context:` only when both are non-empty; otherwise the query is the typed text (empty when nothing was typed) |
| ChatApp.EmptyQueryIffNothingTyped | Chatbot/app.py:357-359 | the graph's query is empty exactly when nothing was typed, whatever the sidebar says |
| ChatApp.UserEntry | Chatbot/app.py:318-333 | a user entry; with an upload it carries the image and its content is the typed text plus `\n\n[Image attached]`, or just `[Image attached]`; without one the content is the raw input and there is no image |
| ChatApp.UserEntryKeepsInput | Chatbot/app.py:324-333 | the typed text and the image can both be read back from the user's entry |
| ChatApp.AssistantEntry | Chatbot/app.py:403-455 | an assistant entry without image; a report reply carries the report and the "analyzed" sentence; a tenancy reply carries the answer and the "answered" sentence; another reply is stored as its own content; a raised error becomes `I encountered an error: ` plus its text |
| ChatApp.InitialState | Chatbot/app.py:362-369 | the initial state has the query, image, location and history given, no response and sender `user` |
| ChatApp.PhotoOnlyTurnUsesDefaultRequest | Chatbot/app.py:357-369 | a photo sent without text reaches the graph with an empty query, is routed to agent_1 and is analysed with the fixed request text |
| ChatApp.ChatSession.constructor | Chatbot/app.py:231-232 | a new session's history is empty |
| ChatApp.ChatSession.ClearHistory | Chatbot/app.py:226-228 | clearing leaves the history empty |
| ChatApp.ChatSession.SubmitTurn | Chatbot/app.py:306-455 | the graph gets the composed query, the upload, the normalised location, no response, sender `user` and the history including the new user entry; the history gains exactly the user entry and then one assistant entry for the graph's outcome |

## Left out

- Model and search calls (the router and clarification models, the
  structured-output model, the streaming client with its search tool) are
  parameters. The router and the clarification handler each take their own
  `classify`, because the two calls may answer differently.
- Agents.RouteQuery: an exception raised by the classification call is not
  modelled. Neither the router nor the clarification handler catches it, so
  the page records it as an error entry, which `AssistantEntry` models.
- Agents.RunAgent2: everything the client calls can raise after the key
  check, including `genai.configure`, is one failure outcome of `generate`.
  A missing key is the fixed `ValueError` text.
- The prompt constants are opaque: the tenancy instruction is a parameter and
  the other prompts are not used by the deterministic logic.
- Base64 encoding and the data URI of the image are library calls. The image
  is kept as its bytes everywhere, including the history entry.
- Rendering on the page is not modelled: CSS, layout, widgets, previews and
  the footer.
- The submission trigger at Chatbot/app.py:306 is not modelled. It depends on
  Streamlit's rerun behaviour and on the identity of the uploaded file object.
  `SubmitTurn` models what happens once a turn is submitted.
- ChatApp.ChatSession.SubmitTurn: `chat_history` in the source is the same
  list object as the session's messages. The model passes a copy taken after
  the user's entry, which is what the graph sees when it runs.
- ChatApp.InitialState: the source dictionary has no `next` or
  `structured_response` keys. The record holds `None` for both.
- The graph wiring is not modelled. The compiled graph comes from a module
  that is not part of this model, so `SubmitTurn` takes its outcome as a
  parameter.
- The handlers shown always reply with text. The page's report and tenancy
  branches are therefore reached only if the graph module returns such
  objects. They are kept as `GraphReply` cases.
- `TenancyFAQResponse` is defined in a module that is not part of this model.
  It is carried only as an answer text.
- real_estate_chatbot/app.py is a second, simpler user-interface script. Its
  user-entry tagging is the one modelled, but its query carries no sidebar
  context, its location is always `None`, a report is stored under `report`,
  and it has no tenancy branch. It is not modelled.
- ChatApp.Sidebar: the property age is a natural number. The slider's 0 to
  100 range is not enforced.
- ReportFormat.FormatParseRoundTrip is stated for reports whose assessment
  and items hold no newline. With a newline inside a field, the text does not
  determine the report.
