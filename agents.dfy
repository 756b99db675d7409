/**
 * The router and the three handlers of the graph. Each takes the state
 * record and returns it with only its own keys replaced. The language-model
 * calls are parameters: `classify` gives the router model's raw reply to a
 * query, `analyze` the structured report for an image (or the text of the
 * exception it raised), and `generate` the streamed reply chunks for a
 * prompt (or the text of the exception).
 */
module Agents {
  import opened Wrappers
  import opened Text
  import opened Schemas
  import opened GraphState
  import opened ReportFormat

  const PropertyIssueLabel := "PROPERTY_ISSUE"
  const TenancyFaqLabel := "TENANCY_FAQ"

  const NeedImage := "I need an image to analyze property issues. Please upload a photo of the issue."
  const DefaultImageRequest := "Please analyze this image for property issues."
  const NeedQuestion := "I need a question about tenancy or rental properties to assist you."
  const MissingApiKey := "GOOGLE_API_KEY environment variable not set"
  const AskForPhoto := "To help you with property issues, I'll need to see an image of the problem. Could you please upload a photo?"
  const NotSure := "I'm not sure what you're asking about. Are you inquiring about property issues (please provide an image) or do you have questions about tenancy laws and regulations?"

  function ImageAnalysisError(error: string): string
  {
    "I encountered an error analyzing the image: " + error + ". Please try again with a clearer image."
  }

  function TenancyError(error: string): string
  {
    "I encountered an error while researching your tenancy question: " + error + ". Please try again."
  }

  /** The router model's reply, stripped, names a property issue. */
  predicate SaysPropertyIssue(classification: string)
  {
    Contains(Strip(classification), PropertyIssueLabel)
  }

  /** The router model's reply, stripped, names a tenancy question. */
  predicate SaysTenancyFaq(classification: string)
  {
    Contains(Strip(classification), TenancyFaqLabel)
  }

  /**
   * The router: any image, even an empty one, goes to the property-issue
   * handler without consulting the model; a text query goes to the tenancy
   * handler only when the model's reply names a tenancy question and not a
   * property issue; everything else asks for clarification.
   */
  function RouteQuery(state: State, classify: string -> string): (r: State)
    ensures r == state.(next := r.next)
    ensures r.next.Some?
    ensures r.next == Some(Agent1) <==> state.imageData.Some?
    ensures r.next == Some(Agent2) <==>
      state.imageData.None? && state.query != ""
      && !SaysPropertyIssue(classify(state.query)) && SaysTenancyFaq(classify(state.query))
  {
    if state.imageData.Some? then state.(next := Some(Agent1))
    else if state.query != "" then
      var classification := classify(state.query);
      if SaysPropertyIssue(classification) then state.(next := Some(Clarification))
      else if SaysTenancyFaq(classification) then state.(next := Some(Agent2))
      else state.(next := Some(Clarification))
    else state.(next := Some(Clarification))
  }

  /** Neither label holds whitespace, so stripping the reply never changes which label it contains. */
  lemma LabelsHaveNoSpace()
    ensures forall k :: 0 <= k < |PropertyIssueLabel| ==> !IsSpace(PropertyIssueLabel[k])
    ensures forall k :: 0 <= k < |TenancyFaqLabel| ==> !IsSpace(TenancyFaqLabel[k])
  {
  }

  /** The routing decision table, stated on the model's raw reply. */
  lemma RouteDecisionTable(state: State, classify: string -> string)
    requires state.imageData.None?
    ensures state.query == "" ==> RouteQuery(state, classify).next == Some(Clarification)
    ensures state.query != "" && Contains(classify(state.query), PropertyIssueLabel) ==>
      RouteQuery(state, classify).next == Some(Clarification)
    ensures (state.query != "" && !Contains(classify(state.query), PropertyIssueLabel)
             && Contains(classify(state.query), TenancyFaqLabel)) ==>
      RouteQuery(state, classify).next == Some(Agent2)
    ensures (state.query != "" && !Contains(classify(state.query), PropertyIssueLabel)
             && !Contains(classify(state.query), TenancyFaqLabel)) ==>
      RouteQuery(state, classify).next == Some(Clarification)
  {
    if state.query != "" {
      LabelsHaveNoSpace();
      StripKeepsContains(classify(state.query), PropertyIssueLabel);
      StripKeepsContains(classify(state.query), TenancyFaqLabel);
    }
  }

  /** With an image, or without a query, the router's model is never consulted. */
  lemma RouteIgnoresModelWithoutTextQuery(state: State, f: string -> string, g: string -> string)
    requires state.imageData.Some? || state.query == ""
    ensures RouteQuery(state, f) == RouteQuery(state, g)
  {
  }

  /**
   * The clarification handler: a non-empty query that its model reply calls
   * a property issue gets the request for a photo; every other case gets the
   * generic question.
   */
  function AskClarification(state: State, classify: string -> string): (r: State)
    ensures r == state.(response := r.response, sender := r.sender)
    ensures r.sender == "clarification"
    ensures r.response == Some(AskForPhoto) || r.response == Some(NotSure)
    ensures r.response == Some(AskForPhoto) <==>
      state.query != "" && SaysPropertyIssue(classify(state.query))
  {
    if state.query != "" && SaysPropertyIssue(classify(state.query)) then
      state.(response := Some(AskForPhoto), sender := "clarification")
    else
      state.(response := Some(NotSure), sender := "clarification")
  }

  /** Python truthiness of the image bytes: present and non-empty. */
  predicate HasImage(state: State)
  {
    state.imageData.Some? && |state.imageData.value| > 0
  }

  /** The text sent beside the image: the query, or a fixed request when the query is empty. */
  function ImageRequestText(query: string): (text: string)
    ensures text != ""
    ensures query != "" ==> text == query
  {
    if query != "" then query else DefaultImageRequest
  }

  /**
   * The property-issue handler. Without image bytes it asks for a photo; a
   * failed analysis becomes an error response; a report becomes the
   * formatted response and is also stored as the structured response.
   */
  function RunAgent1(state: State, analyze: (string, seq<bv8>) -> Result<PropertyIssueReport, string>): (r: State)
    ensures r == state.(response := r.response, sender := r.sender, structuredResponse := r.structuredResponse)
    ensures r.sender == "agent_1" && r.response.Some?
    ensures !HasImage(state) ==> r.response == Some(NeedImage)
    ensures HasImage(state) ==>
      var outcome := analyze(ImageRequestText(state.query), state.imageData.value);
      && (outcome.Failure? ==> r.response == Some(ImageAnalysisError(outcome.error)))
      && (outcome.Success? ==> r.response == Some(FormatReport(outcome.value)))
    ensures r.structuredResponse != state.structuredResponse ==>
      r.structuredResponse.Some? && HasImage(state)
      && analyze(ImageRequestText(state.query), state.imageData.value) == Success(r.structuredResponse.value)
    ensures HasImage(state) && analyze(ImageRequestText(state.query), state.imageData.value).Success? ==>
      r.structuredResponse == Some(analyze(ImageRequestText(state.query), state.imageData.value).value)
  {
    if !HasImage(state) then
      state.(response := Some(NeedImage), sender := "agent_1")
    else
      match analyze(ImageRequestText(state.query), state.imageData.value)
      case Failure(error) =>
        state.(response := Some(ImageAnalysisError(error)), sender := "agent_1")
      case Success(report) =>
        state.(response := Some(FormatReport(report)), sender := "agent_1", structuredResponse := Some(report))
  }

  /**
   * The property-issue handler's response reads back as the report it
   * stored, whenever the report's fields each fit on one line.
   */
  lemma Agent1ResponseShowsReport(state: State, analyze: (string, seq<bv8>) -> Result<PropertyIssueReport, string>)
    requires HasImage(state)
    requires analyze(ImageRequestText(state.query), state.imageData.value).Success?
    requires SingleLineFields(analyze(ImageRequestText(state.query), state.imageData.value).value)
    ensures RunAgent1(state, analyze).structuredResponse.Some?
    ensures ParseReport(RunAgent1(state, analyze).response.value) == RunAgent1(state, analyze).structuredResponse
  {
    FormatParseRoundTrip(analyze(ImageRequestText(state.query), state.imageData.value).value);
  }

  /**
   * An uploaded but empty image passes the router's `is not None` test and
   * then fails the handler's truthiness test, so it is asked for again.
   */
  lemma EmptyImageIsRequestedAgain(
    state: State, classify: string -> string,
    analyze: (string, seq<bv8>) -> Result<PropertyIssueReport, string>)
    requires state.imageData == Some([])
    ensures RouteQuery(state, classify).next == Some(Agent1)
    ensures RunAgent1(RouteQuery(state, classify), analyze).response == Some(NeedImage)
  {
  }

  /** The query with the location appended when one is given. */
  function FullQuery(query: string, location: Option<string>): (full: string)
    ensures !Truthy(location) ==> full == query
    ensures Truthy(location) ==>
      |full| == |query| + |location.value| + 13
      && full[..|query|] == query
      && full[|query|..|query| + 12] == " (Location: "
      && full[|query| + 12..|full| - 1] == location.value
      && full[|full| - 1] == ')'
  {
    if Truthy(location) then query + " (Location: " + location.value + ")" else query
  }

  /** The single prompt text sent to the tenancy model: the system instruction, then the question. */
  function TenancyPrompt(instruction: string, fullQuery: string): (prompt: string)
    ensures |prompt| == |instruction| + 17 + |fullQuery|
    ensures prompt[..|instruction|] == instruction
    ensures prompt[|instruction|..|instruction| + 17] == "\n\nUser question: "
    ensures prompt[|prompt| - |fullQuery|..] == fullQuery
  {
    instruction + "\n\nUser question: " + fullQuery
  }

  /** The text a streamed chunk contributes: its text, or nothing when it has none. */
  function ChunkText(chunk: Option<string>): string
  {
    if chunk.Some? then chunk.value else ""
  }

  /** The reply assembled from a stream of chunks, in order. */
  function StreamText(chunks: seq<Option<string>>): string
  {
    if |chunks| == 0 then "" else ChunkText(chunks[0]) + StreamText(chunks[1..])
  }

  /** The text of two consecutive stretches of a stream is the text of the first followed by that of the second. */
  lemma {:induction false} StreamTextAppend(xs: seq<Option<string>>, ys: seq<Option<string>>)
    ensures StreamText(xs + ys) == StreamText(xs) + StreamText(ys)
    decreases |xs|
  {
    if |xs| > 0 {
      StreamTextAppend(xs[1..], ys);
      assert (xs + ys)[1..] == xs[1..] + ys;
    } else {
      assert xs + ys == ys;
    }
  }

  /** Reads the stream, appending the text of every chunk that has non-empty text. */
  method CollectStream(chunks: seq<Option<string>>) returns (text: string)
    ensures text == StreamText(chunks)
  {
    text := "";
    var i := 0;
    while i < |chunks|
      invariant 0 <= i <= |chunks|
      invariant text == StreamText(chunks[..i])
    {
      var chunk := chunks[i];
      if chunk.Some? && chunk.value != "" {
        text := text + chunk.value;
      }
      StreamTextAppend(chunks[..i], [chunk]);
      assert chunks[..i + 1] == chunks[..i] + [chunk];
      i := i + 1;
    }
    assert chunks[..i] == chunks;
  }

  /**
   * The tenancy handler. An empty query gets the request for a question; a
   * missing key and any failure of the model call become an error response;
   * otherwise the response is the streamed reply to the prompt.
   */
  method RunAgent2(
    state: State, apiKey: Option<string>, instruction: string,
    generate: string -> Result<seq<Option<string>>, string>)
    returns (r: State)
    ensures r == state.(response := r.response, sender := r.sender)
    ensures r.sender == "agent_2"
    ensures state.query == "" ==> r.response == Some(NeedQuestion)
    ensures state.query != "" && !Truthy(apiKey) ==> r.response == Some(TenancyError(MissingApiKey))
    ensures state.query != "" && Truthy(apiKey) ==>
      var outcome := generate(TenancyPrompt(instruction, FullQuery(state.query, state.location)));
      && (outcome.Failure? ==> r.response == Some(TenancyError(outcome.error)))
      && (outcome.Success? ==> r.response == Some(StreamText(outcome.value)))
  {
    if state.query == "" {
      return state.(response := Some(NeedQuestion), sender := "agent_2");
    }
    var fullQuery := FullQuery(state.query, state.location);
    if !Truthy(apiKey) {
      return state.(response := Some(TenancyError(MissingApiKey)), sender := "agent_2");
    }
    var outcome := generate(TenancyPrompt(instruction, fullQuery));
    match outcome {
      case Failure(error) =>
        r := state.(response := Some(TenancyError(error)), sender := "agent_2");
      case Success(chunks) =>
        var text := CollectStream(chunks);
        r := state.(response := Some(text), sender := "agent_2");
    }
  }
}
