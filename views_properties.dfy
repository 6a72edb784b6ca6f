/** What the chat endpoint guarantees about its responses, the remote call
    and the process-wide client. */
module ViewsProperties {
  import opened Basics
  import opened Prompt
  import opened Views

  /** 400 exactly when the message is absent, null or empty, and then with
      the fixed error, no remote call and no client change, whatever the
      context, the key or the remote service. */
  lemma BadRequestIffNoMessage(data: RequestData, apiKey: Option<string>, existing: Option<string>,
                               remote: (string, CompletionRequest) -> RemoteOutcome)
    ensures var h := ChatOutcome(data, apiKey, existing, remote);
            h.response.status == StatusBadRequest <==> !TruthyString(UserMessage(data))
    ensures var h := ChatOutcome(data, apiKey, existing, remote);
            !TruthyString(UserMessage(data)) ==>
              h == Handled(ErrorResponse(StatusBadRequest, MessageRequired), existing, None)
  {
    var h := ChatOutcome(data, apiKey, existing, remote);
    if TruthyString(UserMessage(data)) {
      assert h.response.status != StatusBadRequest;
    }
  }

  /** A message but no key: "not configured", before the prompt is built
      (so even a context that would raise gets this answer). */
  lemma NotConfiguredWithoutKey(data: RequestData, apiKey: Option<string>, existing: Option<string>,
                                remote: (string, CompletionRequest) -> RemoteOutcome)
    requires TruthyString(UserMessage(data)) && !TruthyString(apiKey)
    ensures ChatOutcome(data, apiKey, existing, remote)
            == Handled(ErrorResponse(StatusServerError, NotConfigured), existing, None)
  {
  }

  /** The remote service is called exactly when there is a message, a key
      and a prompt that could be built, and then with the model, the built
      prompt as the system message and the raw message as the user message. */
  lemma RemoteCalledExactly(data: RequestData, apiKey: Option<string>, existing: Option<string>,
                            remote: (string, CompletionRequest) -> RemoteOutcome)
    ensures var h := ChatOutcome(data, apiKey, existing, remote);
            h.sent.Some? <==>
              TruthyString(UserMessage(data)) && TruthyString(apiKey) &&
              SystemPrompt(Get(data.userContext)).Ok?
    ensures var h := ChatOutcome(data, apiKey, existing, remote);
            h.sent.Some? ==>
              h.sent.value == ChatRequest(SystemPrompt(Get(data.userContext)).value, UserMessage(data).value)
  {
  }

  /** With no context (absent, null or an empty object) the system message
      is the base instruction alone. */
  lemma NoContextSendsBase(data: RequestData, apiKey: Option<string>, existing: Option<string>,
                           remote: (string, CompletionRequest) -> RemoteOutcome)
    requires TruthyString(UserMessage(data)) && TruthyString(apiKey)
    requires IsFalsy(Get(data.userContext))
    ensures ChatOutcome(data, apiKey, existing, remote).sent
            == Some(ChatRequest(Base, UserMessage(data).value))
  {
  }

  /** A context that makes the prompt builder raise gives the generic error
      and no remote call. */
  lemma PromptFailureIsGeneric(data: RequestData, apiKey: Option<string>, existing: Option<string>,
                               remote: (string, CompletionRequest) -> RemoteOutcome)
    requires TruthyString(UserMessage(data)) && TruthyString(apiKey)
    requires SystemPrompt(Get(data.userContext)).Raised?
    ensures ChatOutcome(data, apiKey, existing, remote)
            == Handled(ErrorResponse(StatusServerError, ProcessingFailed), existing, None)
  {
  }

  /** Once the request is sent, the call is made through the process-wide
      client, and the answer is 200 with the first choice's content exactly
      when the service answers with at least one choice; otherwise it is the
      generic 500, which carries nothing of the failure. */
  lemma ReplyIsFirstChoice(data: RequestData, apiKey: Option<string>, existing: Option<string>,
                           remote: (string, CompletionRequest) -> RemoteOutcome)
    ensures var h := ChatOutcome(data, apiKey, existing, remote);
            h.sent.Some? ==>
              h.clientKey.Some? &&
              var o := remote(h.clientKey.value, h.sent.value);
              (h.response.status == StatusOk <==> o.Completed? && |o.choices| > 0) &&
              (h.response.status == StatusOk ==> h.response.body == ReplyBody(o.choices[0])) &&
              (h.response.status != StatusOk ==>
                 h.response == ErrorResponse(StatusServerError, ProcessingFailed))
    ensures var h := ChatOutcome(data, apiKey, existing, remote);
            h.response.status == StatusOk ==> h.sent.Some?
  {
  }

  /** The client: an existing one is kept and used whatever the configured key
      is now; without one, a client is made with the configured key exactly
      when the request gets as far as the remote call. */
  lemma ClientLifecycle(data: RequestData, apiKey: Option<string>, existing: Option<string>,
                        remote: (string, CompletionRequest) -> RemoteOutcome)
    ensures var h := ChatOutcome(data, apiKey, existing, remote);
            existing.Some? ==> h.clientKey == existing
    ensures var h := ChatOutcome(data, apiKey, existing, remote);
            existing.None? ==>
              (h.clientKey.Some? <==> h.sent.Some?) &&
              (h.clientKey.Some? ==> TruthyString(apiKey) && h.clientKey == apiKey)
  {
  }

  /** Two requests in a row: the client the first one leaves is the one the
      second one uses and leaves. */
  lemma ClientReused(d1: RequestData, d2: RequestData, k1: Option<string>, k2: Option<string>,
                     existing: Option<string>,
                     remote: (string, CompletionRequest) -> RemoteOutcome)
    ensures var first := ChatOutcome(d1, k1, existing, remote);
            var second := ChatOutcome(d2, k2, first.clientKey, remote);
            first.clientKey.Some? ==> second.clientKey == first.clientKey
  {
  }
}
