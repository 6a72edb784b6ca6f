/** The chat endpoint (`ai_chat`) and the lazily created, process-wide
    completion client (`get_openai_client`) of backend/api/views.py. The
    remote completion service is a function parameter: given the API key of
    the client making the call and the request, it answers with the
    message contents of the returned choices, or fails. */
module Views {
  import opened Basics
  import opened Prompt

  const ChatModel := "gpt-4o-mini"

  const MessageRequired := "Message is required"
  const NotConfigured := "AI service is not configured"
  const ProcessingFailed := "An error occurred while processing your request"

  const StatusOk := 200
  const StatusBadRequest := 400
  const StatusServerError := 500

  datatype ChatMessage = ChatMessage(role: string, content: string)

  /** `client.chat.completions.create(model=..., messages=[...])`. */
  datatype CompletionRequest = CompletionRequest(model: string, messages: seq<ChatMessage>)

  /** What the remote call gives back: the `message.content` of each choice
      (which the service may leave null), or an exception. */
  datatype RemoteOutcome = Completed(choices: seq<Option<string>>) | Failed

  /** The decoded JSON body of the POST request. */
  datatype RequestData = RequestData(message: Field<string>, userContext: Field<UserContext>)

  datatype Body = ReplyBody(reply: Option<string>) | ErrorBody(error: string)

  datatype Response = Response(status: int, body: Body)

  /** The response, the API key of the process-wide client afterwards (None
      while there is none), and the request sent to the remote service, if
      one was sent. */
  datatype Handled = Handled(response: Response, clientKey: Option<string>, sent: Option<CompletionRequest>)

  function ErrorResponse(status: int, error: string): Response {
    Response(status, ErrorBody(error))
  }

  /** The two-message transcript sent for a prompt and a user message. */
  function ChatRequest(systemPrompt: string, userMessage: string): (r: CompletionRequest)
    ensures r.model == ChatModel && |r.messages| == 2
    ensures r.messages[0].role == "system" && r.messages[0].content == systemPrompt
    ensures r.messages[1].role == "user" && r.messages[1].content == userMessage
  {
    CompletionRequest(ChatModel, [ChatMessage("system", systemPrompt), ChatMessage("user", userMessage)])
  }

  /** `request.data.get("message", "")`. */
  function UserMessage(data: RequestData): Option<string> {
    GetOr(data.message, "")
  }

  /** The key of the client `get_openai_client` returns when it does not
      raise: the existing client's, or a new one made with the configured key. */
  function ClientKeyAfter(existing: Option<string>, apiKey: Option<string>): (k: string)
    requires existing.Some? || TruthyString(apiKey)
    ensures existing.Some? ==> k == existing.value
    ensures existing.None? ==> k == apiKey.value
  {
    if existing.Some? then existing.value else apiKey.value
  }

  /** One call of `ai_chat`, given the configured API key, the key of the
      already created client (if any) and the remote service. Every failure
      is one of three fixed error responses; success is a 200 reply. */
  function ChatOutcome(data: RequestData, apiKey: Option<string>, existing: Option<string>,
                       remote: (string, CompletionRequest) -> RemoteOutcome): (h: Handled)
    ensures h.response.status in {StatusOk, StatusBadRequest, StatusServerError}
    ensures h.response.status == StatusOk <==> h.response.body.ReplyBody?
    ensures h.response.body.ErrorBody? ==>
              h.response.body.error in {MessageRequired, NotConfigured, ProcessingFailed}
    ensures existing.Some? ==> h.clientKey == existing
  {
    var message := UserMessage(data);
    if !TruthyString(message) then
      Handled(ErrorResponse(StatusBadRequest, MessageRequired), existing, None)
    else if !TruthyString(apiKey) then
      Handled(ErrorResponse(StatusServerError, NotConfigured), existing, None)
    else
      match SystemPrompt(Get(data.userContext))
      case Raised => Handled(ErrorResponse(StatusServerError, ProcessingFailed), existing, None)
      case Ok(systemPrompt) =>
        var key := ClientKeyAfter(existing, apiKey);
        var request := ChatRequest(systemPrompt, message.value);
        match remote(key, request)
        case Failed => Handled(ErrorResponse(StatusServerError, ProcessingFailed), Some(key), Some(request))
        case Completed(choices) =>
          if |choices| == 0 then
            Handled(ErrorResponse(StatusServerError, ProcessingFailed), Some(key), Some(request))
          else
            Handled(Response(StatusOk, ReplyBody(choices[0])), Some(key), Some(request))
  }

  /** A completion client; it keeps the API key it was made with. */
  class OpenAIClient {
    const apiKey: string

    constructor(apiKey: string)
      ensures this.apiKey == apiKey
    {
      this.apiKey := apiKey;
    }
  }

  /** The module's global state: the client, created on first use and then
      kept for the life of the process. */
  class ViewsModule {
    var client: OpenAIClient?

    constructor()
      ensures client == null
    {
      client := null;
    }

    /** The key of the current client, None while there is none. */
    function ClientKey(): (k: Option<string>)
      reads this
      ensures k.Some? <==> client != null
    {
      if client == null then None else Some(client.apiKey)
    }

    /** `get_openai_client()`: the existing client whatever the key is now;
        otherwise a ValueError for a falsy key, or a new client made with the
        key and kept. */
    method GetOpenAIClient(apiKey: Option<string>) returns (r: Result<OpenAIClient>)
      modifies this
      ensures old(client) != null ==> r.Ok? && r.value == old(client) && client == old(client)
      ensures old(client) == null && !TruthyString(apiKey) ==> r == Raised && client == null
      ensures old(client) == null && TruthyString(apiKey) ==>
                r.Ok? && fresh(r.value) && r.value.apiKey == apiKey.value && client == r.value
    {
      if client == null {
        if !TruthyString(apiKey) {
          return Raised;
        }
        client := new OpenAIClient(apiKey.value);
      }
      r := Ok(client);
    }

    /** `ai_chat(request)`, in the order the source takes its steps: read the
        message, check the key, build the prompt, get the client, call the
        remote service and read the first choice. */
    method AiChat(data: RequestData, apiKey: Option<string>,
                  remote: (string, CompletionRequest) -> RemoteOutcome)
      returns (response: Response, sent: Option<CompletionRequest>)
      modifies this
      ensures var h := ChatOutcome(data, apiKey, old(ClientKey()), remote);
              response == h.response && sent == h.sent && ClientKey() == h.clientKey
      ensures old(client) != null ==> client == old(client)
    {
      sent := None;
      var message := UserMessage(data);
      if !TruthyString(message) {
        return ErrorResponse(StatusBadRequest, MessageRequired), sent;
      }
      if !TruthyString(apiKey) {
        return ErrorResponse(StatusServerError, NotConfigured), sent;
      }
      var systemPrompt := BuildSystemPrompt(Get(data.userContext));
      if systemPrompt.Raised? {
        return ErrorResponse(StatusServerError, ProcessingFailed), sent;
      }
      var made := GetOpenAIClient(apiKey);
      var c := made.value;
      var request := ChatRequest(systemPrompt.value, message.value);
      sent := Some(request);
      var outcome := remote(c.apiKey, request);
      if outcome.Failed? || |outcome.choices| == 0 {
        response := ErrorResponse(StatusServerError, ProcessingFailed);
      } else {
        response := Response(StatusOk, ReplyBody(outcome.choices[0]));
      }
    }
  }
}
