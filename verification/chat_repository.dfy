/** Provider routing and response normalisation.

    `GetResponse` picks the provider client by model id, or fails with an
    unsupported-model error. Each provider client builds a one-message
    request, performs one call of its HTTP API and returns the first
    choice's content, a "No response from ..." sentinel when there is no
    choice, or rethrows the API's failure with a descriptive message.

    The HTTP APIs are oracles passed in as functions from the request to the
    parsed response or the exception thrown. Every result also lists the
    calls made, so that "no call" and "exactly one call" can be stated. */
module ChatRepository {
  import opened Wrappers
  import opened Kotlin
  import opened AIModels
  import opened ChatApi

  /** The two backends. */
  datatype Provider = XAI | Groq

  /** A provider's HTTP API: the request in, the parsed response or the
      exception out. */
  type ProviderApi = ChatRequest -> Try<ChatResponse>

  /** One call made to a provider's HTTP API. */
  datatype Call = Call(provider: Provider, request: ChatRequest)

  /** What `getResponse` returned or threw, and the API calls it made. */
  datatype Reply = Reply(outcome: Try<string>, calls: seq<Call>)

  /** The request both provider clients send: the model's id and token cap,
      the default temperature, no streaming, and a single user message
      holding the text. */
  function BuildRequest(message: string, model: AIModel): (r: ChatRequest)
    ensures r.model == model.id && r.maxTokens == Some(model.maxTokens)
    ensures |r.messages| == 1 && r.messages[0].role == "user" && r.messages[0].content == message
    ensures r.temperature == 0.7 && !r.stream
  {
    NewChatRequest(model.id, [Message("user", message)]).(maxTokens := Some(model.maxTokens))
  }

  /** The text extracted from a response: the first choice's content, or a
      sentinel naming the model when there is no choice. */
  function ResponseText(response: ChatResponse, model: AIModel): (r: string)
    ensures |response.choices| > 0 ==> r == response.choices[0].message.content
    ensures response.choices == [] ==> r == "No response from " + model.displayName
  {
    if |response.choices| > 0 then response.choices[0].message.content
    else "No response from " + model.displayName
  }

  const FailurePrefix: string := "Failed to get response from "

  /** The message of the exception a provider client rethrows: it names the
      model right after the fixed opening, then ": ", and ends with the
      cause's message as a template renders it ("null" when there is none). */
  function FailureMessage(model: AIModel, cause: Option<string>): (r: string)
    ensures |r| == |FailurePrefix| + |model.displayName| + 2 + |TemplateOf(cause)|
    ensures r[..|FailurePrefix| + |model.displayName|] == FailurePrefix + model.displayName
    ensures r[|FailurePrefix| + |model.displayName|..|r| - |TemplateOf(cause)|] == ": "
    ensures r[|r| - |TemplateOf(cause)|..] == TemplateOf(cause)
  {
    FailurePrefix + model.displayName + ": " + TemplateOf(cause)
  }

  /** `XAIService.getResponse`: exactly one call to the x.ai API with the
      built request; a response gives its text, a failure is rethrown with
      a message naming the model. */
  function XaiGetResponse(message: string, model: AIModel, api: ProviderApi): (r: Reply)
    ensures r.calls == [Call(XAI, BuildRequest(message, model))]
    ensures api(BuildRequest(message, model)).Ok? ==>
              r.outcome == Ok(ResponseText(api(BuildRequest(message, model)).value, model))
    ensures api(BuildRequest(message, model)).Thrown? ==>
              r.outcome == Thrown(Some(FailureMessage(model, api(BuildRequest(message, model)).message)))
  {
    var request := BuildRequest(message, model);
    var outcome :=
      match api(request)
      case Ok(response) => Ok(ResponseText(response, model))
      case Thrown(cause) => Thrown(Some(FailureMessage(model, cause)));
    Reply(outcome, [Call(XAI, request)])
  }

  /** `GroqService.getResponse`: the same as the x.ai client, against the
      Groq API. */
  function GroqGetResponse(message: string, model: AIModel, api: ProviderApi): (r: Reply)
    ensures r.calls == [Call(Groq, BuildRequest(message, model))]
    ensures api(BuildRequest(message, model)).Ok? ==>
              r.outcome == Ok(ResponseText(api(BuildRequest(message, model)).value, model))
    ensures api(BuildRequest(message, model)).Thrown? ==>
              r.outcome == Thrown(Some(FailureMessage(model, api(BuildRequest(message, model)).message)))
  {
    var request := BuildRequest(message, model);
    var outcome :=
      match api(request)
      case Ok(response) => Ok(ResponseText(response, model))
      case Thrown(cause) => Thrown(Some(FailureMessage(model, cause)));
    Reply(outcome, [Call(Groq, request)])
  }

  /** `ChatRepositoryImpl.getResponse`: dispatch on the model id. */
  function GetResponse(message: string, model: AIModel, xaiApi: ProviderApi, groqApi: ProviderApi): (r: Reply)
    ensures |r.calls| <= 1
    ensures r.calls == [] <==> model.id !in RegistryIds()
    ensures r.calls == [] ==> r.outcome == Thrown(Some("Unsupported model: " + model.id))
    ensures r.outcome.Thrown? ==> r.outcome.message.Some?
  {
    RegistryContents();
    if model.id == GrokBeta.id then XaiGetResponse(message, model, xaiApi)
    else if model.id == GroqLlama3_70B.id then GroqGetResponse(message, model, groqApi)
    else if model.id == GroqLlama3_8B.id then GroqGetResponse(message, model, groqApi)
    else if model.id == GroqMixtral8x7B.id then GroqGetResponse(message, model, groqApi)
    else if model.id == GroqGemma7B.id then GroqGetResponse(message, model, groqApi)
    else Reply(Thrown(Some("Unsupported model: " + model.id)), [])
  }

  /** The id "grok-beta" goes to the x.ai client, and only the x.ai API is
      called. */
  lemma GrokRoutedToXai(message: string, model: AIModel, xaiApi: ProviderApi, groqApi: ProviderApi)
    requires model.id == "grok-beta"
    ensures GetResponse(message, model, xaiApi, groqApi) == XaiGetResponse(message, model, xaiApi)
    ensures GetResponse(message, model, xaiApi, groqApi).calls == [Call(XAI, BuildRequest(message, model))]
  {
  }

  /** The four Groq ids go to the Groq client, and only the Groq API is
      called. */
  lemma GroqIdsRoutedToGroq(message: string, model: AIModel, xaiApi: ProviderApi, groqApi: ProviderApi)
    requires model.id in ["llama3-70b-8192", "llama3-8b-8192", "mixtral-8x7b-32768", "gemma-7b-it"]
    ensures GetResponse(message, model, xaiApi, groqApi) == GroqGetResponse(message, model, groqApi)
    ensures GetResponse(message, model, xaiApi, groqApi).calls == [Call(Groq, BuildRequest(message, model))]
  {
  }

  /** Any other id fails with "Unsupported model: <id>" and no API is
      called; and conversely that failure with no call happens only for
      such ids. */
  lemma UnsupportedModelRejected(message: string, model: AIModel, xaiApi: ProviderApi, groqApi: ProviderApi)
    ensures model.id !in RegistryIds() <==>
              GetResponse(message, model, xaiApi, groqApi)
                == Reply(Thrown(Some("Unsupported model: " + model.id)), [])
  {
  }

  /** Every registry model is routed to a provider: the unsupported branch
      cannot be reached from the model selector, and exactly one API call
      is made, carrying the model's id and token cap. */
  lemma RegistryModelsSupported(message: string, xaiApi: ProviderApi, groqApi: ProviderApi)
    ensures forall m :: m in AvailableModels ==>
              && |GetResponse(message, m, xaiApi, groqApi).calls| == 1
              && GetResponse(message, m, xaiApi, groqApi).calls[0].request == BuildRequest(message, m)
  {
    forall m | m in AvailableModels
      ensures |GetResponse(message, m, xaiApi, groqApi).calls| == 1
      ensures GetResponse(message, m, xaiApi, groqApi).calls[0].request == BuildRequest(message, m)
    {
      var i :| 0 <= i < |AvailableModels| && AvailableModels[i] == m;
      assert m.id == RegistryIds()[i];
    }
  }

  /** The two provider clients compute the same result from the same API
      outcome; their calls differ only in the provider they go to. */
  lemma ProviderClientsAgree(message: string, model: AIModel, xaiApi: ProviderApi, groqApi: ProviderApi)
    requires xaiApi(BuildRequest(message, model)) == groqApi(BuildRequest(message, model))
    ensures XaiGetResponse(message, model, xaiApi).outcome == GroqGetResponse(message, model, groqApi).outcome
    ensures XaiGetResponse(message, model, xaiApi).calls[0].request
            == GroqGetResponse(message, model, groqApi).calls[0].request
  {
  }

  /** Sending "Hello" to Llama 3 70B: the request carries exactly one user
      message "Hello" and a token cap of 8192; a response with no choices
      yields the sentinel text rather than a failure. */
  lemma LlamaHelloScenario(xaiApi: ProviderApi, groqApi: ProviderApi)
    requires groqApi(BuildRequest("Hello", GroqLlama3_70B)).Ok?
    requires groqApi(BuildRequest("Hello", GroqLlama3_70B)).value.choices == []
    ensures GetResponse("Hello", GroqLlama3_70B, xaiApi, groqApi).calls[0].request.messages
            == [Message("user", "Hello")]
    ensures GetResponse("Hello", GroqLlama3_70B, xaiApi, groqApi).calls[0].request.maxTokens
            == Some(8192)
    ensures GetResponse("Hello", GroqLlama3_70B, xaiApi, groqApi).outcome
            == Ok("No response from Llama 3 70B (Groq)")
  {
    GroqIdsRoutedToGroq("Hello", GroqLlama3_70B, xaiApi, groqApi);
    assert "No response from " + GroqLlama3_70B.displayName == "No response from Llama 3 70B (Groq)";
  }

  /** An API failure reaches the caller as one failure whose message names
      the model and repeats the cause; a cause without a message shows as
      "null". */
  lemma ApiFailureWrapped(message: string, model: AIModel, xaiApi: ProviderApi, groqApi: ProviderApi,
                          cause: Option<string>)
    requires model in AvailableModels
    requires model == GrokBeta ==> xaiApi(BuildRequest(message, model)) == Thrown(cause)
    requires model != GrokBeta ==> groqApi(BuildRequest(message, model)) == Thrown(cause)
    ensures cause.Some? ==>
              GetResponse(message, model, xaiApi, groqApi).outcome
                == Thrown(Some("Failed to get response from " + model.displayName + ": " + cause.value))
    ensures cause.None? ==>
              GetResponse(message, model, xaiApi, groqApi).outcome
                == Thrown(Some("Failed to get response from " + model.displayName + ": null"))
  {
    RegistryContents();
    if cause.None? {
      var head := "Failed to get response from " + model.displayName;
      assert FailureMessage(model, cause) == head + ": " + "null";
      assert head + ": " + "null" == head + ": null";
    }
  }
}
