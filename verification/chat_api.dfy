/** The chat-completion wire structures the provider clients exchange.
    Serialisation to and from JSON is done by a library and is not modelled;
    these are the records only. */
module ChatApi {
  import opened Wrappers

  /** One entry of the conversation sent to a provider. */
  datatype Message = Message(role: string, content: string)

  /** The request body. `temperature` is the decimal value of the source's
      `Double` literal. */
  datatype ChatRequest = ChatRequest(
    model: string,
    messages: seq<Message>,
    temperature: real,
    maxTokens: Option<int>,
    stream: bool)

  /** The default sampling temperature. */
  const DefaultTemperature: real := 0.7

  /** A request with the source's defaults for the optional fields. */
  function NewChatRequest(model: string, messages: seq<Message>): (r: ChatRequest)
    ensures r.model == model && r.messages == messages
    ensures r.temperature == 0.7 && r.maxTokens == None && !r.stream
  {
    ChatRequest(model, messages, DefaultTemperature, None, false)
  }

  datatype Usage = Usage(promptTokens: int, completionTokens: int, totalTokens: int)

  /** One candidate completion. */
  datatype Choice = Choice(index: int, message: Message, finishReason: Option<string>)

  /** The response body. */
  datatype ChatResponse = ChatResponse(
    id: string,
    objectType: string,
    created: int,
    model: string,
    choices: seq<Choice>,
    usage: Option<Usage>)
}
