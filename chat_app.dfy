/**
 * The chat page's turn: the sidebar context becomes a context sentence, the
 * sentence is appended to the typed question, the user's entry and the
 * graph's initial state are built, and the session's message list gains the
 * user's entry and then exactly one assistant entry.
 */
module ChatApp {
  import opened Wrappers
  import opened Text
  import opened Schemas
  import opened GraphState
  import opened Agents

  const ImageTag := "[Image attached]"
  const ImageTagSuffix := "\n\n[Image attached]"
  const ContextLead := "\n\nAdditional context:"
  const AnalyzedReply := "I've analyzed your property issue."
  const AnsweredReply := "I've answered your tenancy question."
  const ErrorLead := "I encountered an error: "

  /** The sidebar's values: the session location and the three widgets. */
  datatype Sidebar = Sidebar(location: Option<string>, propertyType: string, occupancy: string, propertyAge: nat)

  /** One sentence of the context. */
  datatype Detail =
    | Location(place: string)
    | PropertyType(kind: string)
    | Occupancy(status: string)
    | Age(years: nat)

  /** The session location as the graph receives it: absent when missing or empty. */
  function ContextLocation(sessionLocation: Option<string>): (location: Option<string>)
    ensures location.Some? <==> Truthy(sessionLocation)
    ensures location.Some? ==> location == sessionLocation
  {
    if Truthy(sessionLocation) then sessionLocation else None
  }

  /** Where a detail sits in the context sentence. */
  function Rank(d: Detail): nat
  {
    match d
    case Location(_) => 0
    case PropertyType(_) => 1
    case Occupancy(_) => 2
    case Age(_) => 3
  }

  /** Whether the sidebar shows this detail: a given location, a type other than "Other", an occupancy other than "Not applicable", an age above zero. */
  predicate Shown(sidebar: Sidebar, d: Detail)
  {
    match d
    case Location(place) => Truthy(sidebar.location) && place == sidebar.location.value
    case PropertyType(kind) => kind == sidebar.propertyType && kind != "Other"
    case Occupancy(status) => status == sidebar.occupancy && status != "Not applicable"
    case Age(years) => years == sidebar.propertyAge && years > 0
  }

  /** The details of the context sentence: exactly the shown ones, in the fixed order. */
  function Details(sidebar: Sidebar): (ds: seq<Detail>)
    ensures forall i :: 0 <= i < |ds| ==> Shown(sidebar, ds[i])
    ensures forall i, j :: 0 <= i < j < |ds| ==> Rank(ds[i]) < Rank(ds[j])
    ensures forall d :: Shown(sidebar, d) ==> d in ds
  {
    ShownOf(sidebar, 0) + ShownOf(sidebar, 1) + ShownOf(sidebar, 2) + ShownOf(sidebar, 3)
  }

  /** The detail of the given rank, when the sidebar shows it. */
  function ShownOf(sidebar: Sidebar, rank: nat): (ds: seq<Detail>)
    requires rank < 4
    ensures |ds| <= 1
    ensures forall i :: 0 <= i < |ds| ==> Shown(sidebar, ds[i]) && Rank(ds[i]) == rank
  {
    if rank == 0 then (if Truthy(sidebar.location) then [Location(sidebar.location.value)] else [])
    else if rank == 1 then (if sidebar.propertyType != "Other" then [PropertyType(sidebar.propertyType)] else [])
    else if rank == 2 then (if sidebar.occupancy != "Not applicable" then [Occupancy(sidebar.occupancy)] else [])
    else (if sidebar.propertyAge > 0 then [Age(sidebar.propertyAge)] else [])
  }

  /** A detail's sentence; each starts with a space and ends with a full stop. */
  function Render(d: Detail): (text: string)
    ensures |text| > 1 && text[0] == ' ' && text[|text| - 1] == '.'
  {
    match d
    case Location(place) => " Location: " + place + "."
    case PropertyType(kind) => " Property type: " + kind + "."
    case Occupancy(status) => " Occupancy: " + status + "."
    case Age(years) => " Property age: " + NatToDecimal(years) + " years."
  }

  function Rendered(ds: seq<Detail>): (texts: seq<string>)
  {
    seq(|ds|, i requires 0 <= i < |ds| => Render(ds[i]))
  }

  /** The context sentence for a list of details. */
  function ContextText(ds: seq<Detail>): string
  {
    Concat(Rendered(ds))
  }

  lemma ContextTextSnoc(ds: seq<Detail>, d: Detail)
    ensures ContextText(ds + [d]) == ContextText(ds) + Render(d)
  {
    assert Rendered(ds + [d]) == Rendered(ds) + [Render(d)];
    ConcatAppend(Rendered(ds), [Render(d)]);
    assert Concat([Render(d)]) == Render(d) + Concat([]);
  }

  /** The context sentence is empty exactly when no detail is shown. */
  lemma ContextTextEmpty(ds: seq<Detail>)
    ensures ContextText(ds) == "" <==> |ds| == 0
  {
    if |ds| > 0 {
      var texts := Rendered(ds);
      assert Concat(texts) == texts[0] + Concat(texts[1..]);
      assert |texts[0]| > 1;
    }
  }

  /** Builds the context sentence by appending each shown detail in turn. */
  method BuildContext(sidebar: Sidebar) returns (text: string)
    ensures text == ContextText(Details(sidebar))
  {
    text := "";
    ghost var shown: seq<Detail> := [];
    assert ContextText([]) == "";
    if Truthy(sidebar.location) {
      var sentence := " Location: " + sidebar.location.value + ".";
      text := text + sentence;
      ContextTextSnoc(shown, Location(sidebar.location.value));
      shown := shown + [Location(sidebar.location.value)];
    }
    assert shown == ShownOf(sidebar, 0);
    ghost var before := shown;
    if sidebar.propertyType != "Other" {
      var sentence := " Property type: " + sidebar.propertyType + ".";
      text := text + sentence;
      ContextTextSnoc(shown, PropertyType(sidebar.propertyType));
      shown := shown + [PropertyType(sidebar.propertyType)];
    }
    assert shown == before + ShownOf(sidebar, 1);
    before := shown;
    if sidebar.occupancy != "Not applicable" {
      var sentence := " Occupancy: " + sidebar.occupancy + ".";
      text := text + sentence;
      ContextTextSnoc(shown, Occupancy(sidebar.occupancy));
      shown := shown + [Occupancy(sidebar.occupancy)];
    }
    assert shown == before + ShownOf(sidebar, 2);
    before := shown;
    if sidebar.propertyAge > 0 {
      var sentence := " Property age: " + NatToDecimal(sidebar.propertyAge) + " years.";
      text := text + sentence;
      ContextTextSnoc(shown, Age(sidebar.propertyAge));
      shown := shown + [Age(sidebar.propertyAge)];
    }
    assert shown == before + ShownOf(sidebar, 3);
  }

  /** The typed text: the input when it is non-empty, otherwise nothing. */
  function InputText(input: Option<string>): (text: string)
    ensures text != "" <==> Truthy(input)
    ensures Truthy(input) ==> text == input.value
  {
    if Truthy(input) then input.value else ""
  }

  /** The query sent to the graph: the typed text, followed by the context when both are non-empty. */
  function EnhancedQuery(input: Option<string>, context: string): (query: string)
    ensures |query| >= |InputText(input)| && query[..|InputText(input)|] == InputText(input)
    ensures InputText(input) != "" && context != "" ==> query[|InputText(input)|..] == ContextLead + context
    ensures InputText(input) == "" || context == "" ==> query == InputText(input)
  {
    var query := InputText(input);
    if context != "" && query != "" then query + ContextLead + context else query
  }

  /** The graph receives an empty query exactly when nothing was typed, whatever the sidebar says. */
  lemma EmptyQueryIffNothingTyped(input: Option<string>, context: string)
    ensures EnhancedQuery(input, context) == "" <==> !Truthy(input)
  {
  }

  /** The user's entry in the history: with an upload, the text tagged as carrying an image, and the image; otherwise the raw input. */
  function UserEntry(input: Option<string>, upload: Option<seq<bv8>>): (m: Message)
    ensures m.role == User && m.image == upload
    ensures m.propertyReport.None? && m.tenancyResponse.None?
    ensures upload.None? ==> m.content == input
    ensures upload.Some? && Truthy(input) ==> m.content == Some(input.value + ImageTagSuffix)
    ensures upload.Some? && !Truthy(input) ==> m.content == Some(ImageTag)
  {
    var content :=
      if upload.Some? then
        if Truthy(input) then Some(input.value + ImageTagSuffix) else Some(ImageTag)
      else input;
    Message(User, content, upload, None, None)
  }

  /** The typed text an entry of the history records. */
  function TypedText(m: Message): string
  {
    if m.content.None? then ""
    else if m.image.Some? then
      var c := m.content.value;
      if c == ImageTag then ""
      else if |c| >= |ImageTagSuffix| then c[..|c| - |ImageTagSuffix|]
      else c
    else m.content.value
  }

  /** The user's entry keeps the typed text and the image: both can be read back from it. */
  lemma UserEntryKeepsInput(input: Option<string>, upload: Option<seq<bv8>>)
    ensures TypedText(UserEntry(input, upload)) == InputText(input)
    ensures UserEntry(input, upload).image == upload
  {
    if upload.Some? && Truthy(input) {
      var c := input.value + ImageTagSuffix;
      assert |c| > |ImageTag|;
      assert c[..|c| - |ImageTagSuffix|] == input.value;
    }
  }

  /** What answering a turn produced: one of the reply kinds, or the text of a raised error. */
  datatype GraphReply =
    | ReportReply(report: PropertyIssueReport)
    | TenancyReply(answer: TenancyFAQResponse)
    | TextReply(text: Option<string>)

  /**
   * The assistant's entry in the history: a report or a tenancy answer is
   * stored with a fixed acknowledgement, any other reply as its own text, and
   * a raised error as an error sentence.
   */
  function AssistantEntry(outcome: Result<GraphReply, string>): (m: Message)
    ensures m.role == Assistant && m.image.None?
    ensures m.propertyReport.Some? <==> outcome.Success? && outcome.value.ReportReply?
    ensures m.propertyReport.Some? ==> m.propertyReport.value == outcome.value.report && m.content == Some(AnalyzedReply)
    ensures m.tenancyResponse.Some? <==> outcome.Success? && outcome.value.TenancyReply?
    ensures m.tenancyResponse.Some? ==> m.tenancyResponse.value == outcome.value.answer && m.content == Some(AnsweredReply)
    ensures outcome.Success? && outcome.value.TextReply? ==> m.content == outcome.value.text
    ensures outcome.Failure? ==> m.content == Some(ErrorLead + outcome.error)
  {
    match outcome
    case Failure(error) => Message(Assistant, Some(ErrorLead + error), None, None, None)
    case Success(ReportReply(report)) => Message(Assistant, Some(AnalyzedReply), None, Some(report), None)
    case Success(TenancyReply(answer)) => Message(Assistant, Some(AnsweredReply), None, None, Some(answer))
    case Success(TextReply(text)) => Message(Assistant, text, None, None, None)
  }

  /** The state the graph starts from. */
  function InitialState(query: string, upload: Option<seq<bv8>>, location: Option<string>, history: seq<Message>): (s: State)
    ensures s.query == query && s.imageData == upload && s.location == location && s.chatHistory == history
    ensures s.response.None? && s.sender == "user"
    ensures s.next.None? && s.structuredResponse.None?
  {
    State(query, upload, location, None, "user", history, None, None)
  }

  /** The page's chat history, kept across reruns. */
  class ChatSession {
    var messages: seq<Message>

    constructor()
      ensures messages == []
    {
      messages := [];
    }

    method ClearHistory()
      modifies this
      ensures messages == []
    {
      messages := [];
    }

    /**
     * One submitted turn. The user's entry is appended, the graph is run on
     * the initial state, and one assistant entry for its outcome is appended.
     */
    method SubmitTurn(
      input: Option<string>, upload: Option<seq<bv8>>, sidebar: Sidebar,
      graph: State -> Result<GraphReply, string>)
      returns (initial: State)
      modifies this
      ensures initial.query == EnhancedQuery(input, ContextText(Details(sidebar.(location := ContextLocation(sidebar.location)))))
      ensures initial.imageData == upload && initial.location == ContextLocation(sidebar.location)
      ensures initial.response.None? && initial.sender == "user"
      ensures initial.chatHistory == old(messages) + [UserEntry(input, upload)]
      ensures messages == old(messages) + [UserEntry(input, upload), AssistantEntry(graph(initial))]
    {
      var userContent: Option<string>;
      if upload.Some? {
        if Truthy(input) {
          userContent := Some(input.value + ImageTagSuffix);
        } else {
          userContent := Some(ImageTag);
        }
      } else {
        userContent := input;
      }
      messages := messages + [Message(User, userContent, upload, None, None)];

      var context := sidebar.(location := ContextLocation(sidebar.location));
      var contextText := BuildContext(context);
      var query := InputText(input);
      if contextText != "" && query != "" {
        query := query + ContextLead + contextText;
      }

      initial := InitialState(query, upload, context.location, messages);
      var outcome := graph(initial);
      messages := messages + [AssistantEntry(outcome)];
    }
  }

  /**
   * A photo sent without text reaches the graph with an empty query, whatever
   * the sidebar says, so the router sends it to the image handler and the
   * handler asks the model with its fixed request.
   */
  lemma PhotoOnlyTurnUsesDefaultRequest(
    input: Option<string>, upload: Option<seq<bv8>>, sidebar: Sidebar,
    history: seq<Message>, classify: string -> string)
    requires upload.Some? && !Truthy(input)
    ensures var context := sidebar.(location := ContextLocation(sidebar.location));
      var initial := InitialState(EnhancedQuery(input, ContextText(Details(context))), upload, context.location, history);
      && initial.query == ""
      && RouteQuery(initial, classify).next == Some(Agent1)
      && ImageRequestText(initial.query) == DefaultImageRequest
  {
    var context := sidebar.(location := ContextLocation(sidebar.location));
    EmptyQueryIffNothingTyped(input, ContextText(Details(context)));
  }
}
