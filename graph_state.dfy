/**
 * The dictionary that flows through the chatbot's graph, as a record. Each
 * dictionary key is a field; a key that is absent, or holds `None`, is `None`.
 */
module GraphState {
  import opened Wrappers
  import opened Schemas

  /** The destinations the router writes under the `next` key: "agent_1", "agent_2" and "clarification". */
  datatype Route = Agent1 | Agent2 | Clarification

  /**
   * The tenancy answer record the user interface knows how to display. Its
   * definition is not part of this model; it is carried as its answer text.
   */
  datatype TenancyFAQResponse = TenancyFAQResponse(answer: string)

  datatype Role = User | Assistant

  /**
   * One entry of the chat history: the `role` and `content` keys, and the
   * optional `image`, `property_report` and `tenancy_response` keys. The
   * image is kept as the uploaded bytes; its base64 text is not modelled.
   */
  datatype Message = Message(
    role: Role,
    content: Option<string>,
    image: Option<seq<bv8>>,
    propertyReport: Option<PropertyIssueReport>,
    tenancyResponse: Option<TenancyFAQResponse>)

  /** The graph state dictionary. */
  datatype State = State(
    query: string,
    imageData: Option<seq<bv8>>,
    location: Option<string>,
    response: Option<string>,
    sender: string,
    chatHistory: seq<Message>,
    next: Option<Route>,
    structuredResponse: Option<PropertyIssueReport>)

  /** Python truthiness of an optional string: present and non-empty. */
  predicate Truthy(s: Option<string>)
  {
    s.Some? && s.value != ""
  }
}
