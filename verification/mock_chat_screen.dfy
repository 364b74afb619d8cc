/** The per-model chat screen reached from the home list. It has no
    backend: it names the model from its id, and each send appends the
    user's message at once and a canned reply after a short delay. Its
    messages are a local list that only grows. */
module MockChatScreen {
  import opened Wrappers
  import opened Kotlin

  datatype MessageSender = USER | AI

  /** A message of this screen. */
  datatype ChatMessage = ChatMessage(
    text: string,
    sender: MessageSender,
    timestamp: Long,
    isPending: bool,
    error: Option<string>)

  /** The ids the home list offers, in order. */
  const HomeModelIds: seq<string> := ["gpt-4", "claude-2", "llama-2", "palm-2"]

  /** The title shown for a model id: the fallback "AI Assistant" exactly
      for the ids the home list does not offer, so every id reachable from
      the home list is named. */
  function ModelName(modelId: string): (r: string)
    ensures r == "AI Assistant" <==> modelId !in HomeModelIds
  {
    if modelId == "gpt-4" then "GPT-4"
    else if modelId == "claude-2" then "Claude 2"
    else if modelId == "llama-2" then "Llama 2"
    else if modelId == "palm-2" then "PaLM 2"
    else "AI Assistant"
  }

  /** The four known ids get their names. */
  lemma KnownModelNames()
    ensures ModelName("gpt-4") == "GPT-4" && ModelName("claude-2") == "Claude 2"
    ensures ModelName("llama-2") == "Llama 2" && ModelName("palm-2") == "PaLM 2"
  {
  }

  const ReplyPrefix: string := "This is a simulated response from "
  const ReplySuffix: string := ". In a real app, this would be an actual response from the AI model's API."

  /** The canned reply: the fixed opening, the model's name, and the fixed
      closing. */
  function SimulatedReplyText(modelName: string): (r: string)
    ensures |r| == |ReplyPrefix| + |modelName| + |ReplySuffix|
    ensures r[..|ReplyPrefix|] == ReplyPrefix
    ensures r[|ReplyPrefix|..|ReplyPrefix| + |modelName|] == modelName
    ensures r[|ReplyPrefix| + |modelName|..] == ReplySuffix
  {
    ReplyPrefix + modelName + ReplySuffix
  }

  /** Screens for differently named models never show the same reply. */
  lemma {:induction false} SimulatedReplyInjective(a: string, b: string)
    requires SimulatedReplyText(a) == SimulatedReplyText(b)
    ensures a == b
  {
    var ra, rb := SimulatedReplyText(a), SimulatedReplyText(b);
    assert |a| == |b|;
    assert a == ra[|ReplyPrefix|..|ReplyPrefix| + |a|] == rb[|ReplyPrefix|..|ReplyPrefix| + |b|] == b;
  }

  /** The number of messages from `sender` in a list. */
  function CountFrom(ms: seq<ChatMessage>, sender: MessageSender): nat {
    if ms == [] then 0
    else CountFrom(ms[..|ms| - 1], sender) + (if ms[|ms| - 1].sender == sender then 1 else 0)
  }

  class MockChatScreen {
    const modelId: string
    const modelName: string
    var messageText: string
    var messages: seq<ChatMessage>
    /** Replies built by sends whose coroutines are still in their delay,
        oldest first. */
    var scheduled: seq<ChatMessage>

    /** Every user message is answered by exactly one reply, added or
        still scheduled; no user message is blank; and every reply, shown
        or scheduled, is the canned text naming this screen's model. */
    ghost predicate Valid()
      reads this
    {
      && modelName == ModelName(modelId)
      && CountFrom(messages, USER) == CountFrom(messages, AI) + |scheduled|
      && (forall i :: 0 <= i < |messages| ==>
            if messages[i].sender == USER then !IsBlank(messages[i].text)
            else messages[i].text == SimulatedReplyText(modelName))
      && (forall i :: 0 <= i < |scheduled| ==>
            scheduled[i].sender == AI && scheduled[i].text == SimulatedReplyText(modelName))
    }

    /** The screen opened for `modelId`: named, empty, nothing typed. */
    constructor (modelId: string)
      ensures Valid()
      ensures this.modelId == modelId && modelName == ModelName(modelId)
      ensures messages == [] && scheduled == [] && messageText == ""
    {
      this.modelId := modelId;
      modelName := ModelName(modelId);
      messageText := "";
      messages := [];
      scheduled := [];
    }

    /** Typing replaces the text. */
    method OnValueChange(text: string)
      requires Valid()
      modifies this
      ensures Valid()
      ensures messageText == text && messages == old(messages) && scheduled == old(scheduled)
    {
      messageText := text;
    }

    /** The send button. Blank text changes nothing. Otherwise the text, as
        typed, is appended as a user message, the canned reply is built now
        with its own timestamp and scheduled, and the box is cleared. */
    method OnSendClick(userTime: Long, replyTime: Long)
      requires Valid()
      modifies this
      ensures Valid()
      ensures IsBlank(old(messageText)) ==>
                messageText == old(messageText) && messages == old(messages) && scheduled == old(scheduled)
      ensures !IsBlank(old(messageText)) ==>
                && messages == old(messages) + [ChatMessage(old(messageText), USER, userTime, false, None)]
                && scheduled == old(scheduled) + [ChatMessage(SimulatedReplyText(modelName), AI, replyTime, false, None)]
                && messageText == ""
    {
      if !IsBlank(messageText) {
        var userMessage := ChatMessage(messageText, USER, userTime, false, None);
        messages := messages + [userMessage];
        var aiResponse := ChatMessage(SimulatedReplyText(modelName), AI, replyTime, false, None);
        messageText := "";
        scheduled := scheduled + [aiResponse];
      }
    }

    /** The oldest scheduled coroutine finishing its delay: its reply is
        appended; nothing is removed. */
    method ResumeReply()
      requires Valid() && scheduled != []
      modifies this
      ensures Valid()
      ensures messages == old(messages) + [old(scheduled)[0]]
      ensures scheduled == old(scheduled)[1..] && messageText == old(messageText)
    {
      messages := messages + [scheduled[0]];
      scheduled := scheduled[1..];
    }
  }
}
