/** The conversation state machine behind the chat screen.

    The view-model holds the message log, the selected model and a loading
    flag. `sendMessage` appends the user's message and raises the flag, then
    launches a coroutine that asks the repository for a reply. The
    coroutine's request and its later completion are modelled as separate
    steps: `SendMessage` returns what the coroutine asks for, and `Complete`
    is the coroutine resuming with the repository's result, appending one
    reply or error message and lowering the flag. Between the two, the
    screen may select another model or send again: the controller itself
    has no busy check, and the reply is attributed to whatever model is
    selected when it arrives. */
module ChatViewModel {
  import opened Wrappers
  import opened Kotlin
  import opened AIModels
  import opened UiModels
  import ChatRepository

  /** A snapshot of the screen's state. */
  datatype ChatUiState = ChatUiState(
    messages: seq<ChatMessage>,
    selectedModel: AIModel,
    isLoading: bool)

  /** The data class's default values. */
  const InitialUiState: ChatUiState := ChatUiState([], DefaultModel, false)

  /** What a launched coroutine asks the repository for: the text as typed
      and the model selected when the coroutine starts, which on the
      view-model's immediate main dispatcher is during `sendMessage`. */
  datatype PendingReply = PendingReply(message: string, model: AIModel)

  /** The message `sendMessage` appends: the untrimmed text, from the user,
      tagged with the selected model's id. */
  function UserMessage(message: string, model: AIModel, id: string, timestamp: Long): ChatMessage {
    ChatMessage(id, message, true, model.id, "", timestamp)
  }

  /** The text shown for a completion: the reply itself, or "Error: " and
      the exception's message, "Unknown error occurred" when it has none. */
  function ReplyText(outcome: Try<string>): string {
    match outcome
    case Ok(text) => text
    case Thrown(cause) => "Error: " + cause.GetOr("Unknown error occurred")
  }

  /** The message a completion appends, attributed to `model`. */
  function AssistantMessage(outcome: Try<string>, model: AIModel, id: string, timestamp: Long): ChatMessage {
    ChatMessage(id, ReplyText(outcome), false, model.id, model.displayName, timestamp)
  }

  /** The state after `sendMessage`. Blank text leaves the whole state
      unchanged. Otherwise exactly one message is appended, from the user,
      holding the text untrimmed and the selected model's id; earlier
      messages stay as they were, the flag is raised whatever it was, and
      the selection is kept. */
  function Sent(s: ChatUiState, message: string, id: string, timestamp: Long): (r: ChatUiState)
    ensures IsBlank(message) ==> r == s
    ensures !IsBlank(message) ==>
              && |r.messages| == |s.messages| + 1
              && r.messages[..|s.messages|] == s.messages
              && r.messages[|s.messages|].isFromUser
              && r.messages[|s.messages|].text == message
              && r.messages[|s.messages|].modelId == s.selectedModel.id
              && r.isLoading && r.selectedModel == s.selectedModel
  {
    if IsBlank(message) then s
    else s.(messages := s.messages + [UserMessage(message, s.selectedModel, id, timestamp)], isLoading := true)
  }

  /** The state after the coroutine resumes with `outcome`. Exactly one
      message, not from the user, is appended after whatever the log holds
      by then; a reply carries its text, a failure "Error: " and the cause,
      or "Error: Unknown error occurred" when the cause has no message;
      either way it is attributed to the model selected by then, and the
      flag is lowered. */
  function Completed(s: ChatUiState, outcome: Try<string>, id: string, timestamp: Long): (r: ChatUiState)
    ensures |r.messages| == |s.messages| + 1
    ensures r.messages[..|s.messages|] == s.messages
    ensures !r.messages[|s.messages|].isFromUser
    ensures outcome.Ok? ==> r.messages[|s.messages|].text == outcome.value
    ensures outcome.Thrown? && outcome.message.Some? ==>
              r.messages[|s.messages|].text == "Error: " + outcome.message.value
    ensures outcome.Thrown? && outcome.message.None? ==>
              r.messages[|s.messages|].text == "Error: Unknown error occurred"
    ensures r.messages[|s.messages|].modelId == s.selectedModel.id
    ensures r.messages[|s.messages|].modelName == s.selectedModel.displayName
    ensures !r.isLoading && r.selectedModel == s.selectedModel
  {
    s.(messages := s.messages + [AssistantMessage(outcome, s.selectedModel, id, timestamp)], isLoading := false)
  }

  /** The state after `selectModel`: the selection changes, and neither the
      log nor the flag does. */
  function Selected(s: ChatUiState, model: AIModel): (r: ChatUiState)
    ensures r.selectedModel == model
    ensures r.messages == s.messages && r.isLoading == s.isLoading
  {
    s.(selectedModel := model)
  }

  class ChatViewModel {
    var messages: seq<ChatMessage>
    var selectedModel: AIModel
    var isLoading: bool
    /** Coroutines launched by `sendMessage` and not yet resumed. */
    ghost var outstanding: nat

    /** The observable `uiState`. */
    function UiState(): ChatUiState
      reads this
    {
      ChatUiState(messages, selectedModel, isLoading)
    }

    /** Every user message is answered by exactly one assistant message,
        already appended or still to come from an outstanding coroutine. */
    ghost predicate Valid()
      reads this
    {
      CountFromUser(messages) == CountReplies(messages) + outstanding
    }

    /** The conversation's intended discipline: at most one request is in
        flight, and the loading flag is up exactly while it is. The
        view-model does not enforce it; the screen's send button does, by
        sending only while the flag is down. */
    ghost predicate OneInFlight()
      reads this
    {
      outstanding <= 1 && (isLoading <==> outstanding == 1)
    }

    /** A fresh view-model: no messages, not loading, Llama 3 70B selected
        (the default value, then selected again by the initialiser). */
    constructor ()
      ensures Valid() && outstanding == 0 && OneInFlight()
      ensures messages == [] && !isLoading && selectedModel == DefaultModel
      ensures UiState() == InitialUiState
    {
      messages := InitialUiState.messages;
      selectedModel := InitialUiState.selectedModel;
      isLoading := InitialUiState.isLoading;
      outstanding := 0;
      new;
      SelectModel(DefaultModel);
    }

    /** `sendMessage`, up to the point where the coroutine suspends on the
        network. Blank text changes nothing and launches nothing. Otherwise
        one user message is appended and the flag raised, whatever the flag
        was, and one more coroutine asks for a reply to the text from the
        model selected now. */
    method SendMessage(message: string, id: string, timestamp: Long) returns (pending: Option<PendingReply>)
      requires Valid()
      modifies this
      ensures Valid()
      ensures UiState() == Sent(old(UiState()), message, id, timestamp)
      ensures IsBlank(message) ==> pending == None && unchanged(this)
      ensures !IsBlank(message) ==> pending == Some(PendingReply(message, old(selectedModel)))
      ensures !IsBlank(message) ==>
                && messages == old(messages) + [UserMessage(message, old(selectedModel), id, timestamp)]
                && isLoading && selectedModel == old(selectedModel)
                && outstanding == old(outstanding) + 1
      ensures old(OneInFlight()) && !old(isLoading) ==> OneInFlight()
    {
      if IsBlank(message) {
        return None;
      }
      messages := messages + [UserMessage(message, selectedModel, id, timestamp)];
      isLoading := true;
      outstanding := outstanding + 1;
      pending := Some(PendingReply(message, selectedModel));
    }

    /** An outstanding coroutine resuming with the repository's result: one
        message from the assistant is appended after the current log,
        attributed to the model selected now, and the flag is lowered even
        if another request is still outstanding. */
    method Complete(outcome: Try<string>, id: string, timestamp: Long)
      requires Valid() && outstanding > 0
      modifies this
      ensures Valid() && outstanding == old(outstanding) - 1
      ensures UiState() == Completed(old(UiState()), outcome, id, timestamp)
      ensures messages == old(messages) + [AssistantMessage(outcome, old(selectedModel), id, timestamp)]
      ensures !isLoading && selectedModel == old(selectedModel)
      ensures old(OneInFlight()) ==> OneInFlight() && outstanding == 0
    {
      messages := messages + [AssistantMessage(outcome, selectedModel, id, timestamp)];
      isLoading := false;
      outstanding := outstanding - 1;
    }

    /** `selectModel`: only the selection changes. */
    method SelectModel(model: AIModel)
      requires Valid()
      modifies this
      ensures Valid() && outstanding == old(outstanding)
      ensures UiState() == Selected(old(UiState()), model)
      ensures selectedModel == model && messages == old(messages) && isLoading == old(isLoading)
      ensures old(OneInFlight()) ==> OneInFlight()
    {
      selectedModel := model;
    }
  }

  // ---------------------------------------------------------------------
  // Runs: any interleaving of sends, model selections and completions
  // ---------------------------------------------------------------------

  /** One step the view-model can take. */
  datatype Event =
    | Send(message: string, id: string, timestamp: Long)
    | Select(model: AIModel)
    | Complete(outcome: Try<string>, id: string, timestamp: Long)

  function Step(s: ChatUiState, e: Event): ChatUiState {
    match e
    case Send(message, id, timestamp) => Sent(s, message, id, timestamp)
    case Select(model) => Selected(s, model)
    case Complete(outcome, id, timestamp) => Completed(s, outcome, id, timestamp)
  }

  /** The state after the events, in order. */
  function Run(s: ChatUiState, events: seq<Event>): ChatUiState
    decreases |events|
  {
    if events == [] then s else Run(Step(s, events[0]), events[1..])
  }

  /** The number of user messages in a log. */
  function CountFromUser(ms: seq<ChatMessage>): nat {
    if ms == [] then 0
    else CountFromUser(ms[..|ms| - 1]) + (if ms[|ms| - 1].isFromUser then 1 else 0)
  }

  /** The number of assistant messages in a log. */
  function CountReplies(ms: seq<ChatMessage>): nat {
    if ms == [] then 0
    else CountReplies(ms[..|ms| - 1]) + (if ms[|ms| - 1].isFromUser then 0 else 1)
  }

  /** The number of sends with non-blank text. */
  function NonBlankSends(events: seq<Event>): nat {
    if events == [] then 0
    else (if events[0].Send? && !IsBlank(events[0].message) then 1 else 0) + NonBlankSends(events[1..])
  }

  /** The number of completions. */
  function Completions(events: seq<Event>): nat {
    if events == [] then 0
    else (if events[0].Complete? then 1 else 0) + Completions(events[1..])
  }

  /** How an event sets the loading flag, if it does. */
  function LoadingSetBy(e: Event): Option<bool> {
    match e
    case Send(message, _, _) => if IsBlank(message) then None else Some(true)
    case Select(_) => None
    case Complete(_, _, _) => Some(false)
  }

  /** The flag set by the last event that sets it, if any. */
  function LastLoadingSet(events: seq<Event>): Option<bool> {
    if events == [] then None
    else
      match LastLoadingSet(events[1..])
      case Some(b) => Some(b)
      case None => LoadingSetBy(events[0])
  }

  /** The model chosen by the last selection, if any. */
  function LastSelection(events: seq<Event>): Option<AIModel> {
    if events == [] then None
    else
      match LastSelection(events[1..])
      case Some(m) => Some(m)
      case None => if events[0].Select? then Some(events[0].model) else None
  }

  /** No busy check: a second non-blank send while a reply is outstanding
      still appends a second user message. */
  lemma SecondSendWhileLoading(s: ChatUiState, m1: string, m2: string, id1: string, id2: string, t1: Long, t2: Long)
    requires !IsBlank(m1) && !IsBlank(m2)
    ensures Sent(s, m1, id1, t1).isLoading
    ensures Sent(Sent(s, m1, id1, t1), m2, id2, t2).messages
            == s.messages + [UserMessage(m1, s.selectedModel, id1, t1), UserMessage(m2, s.selectedModel, id2, t2)]
  {
  }

  /** The reply goes to the model selected when it arrives: send under one
      model, switch to another, complete, and the reply carries the new
      model's id and name although the request went to the old model. */
  lemma ReplyAttributedAtCompletion(s: ChatUiState, message: string, other: AIModel, outcome: Try<string>,
                                    id1: string, id2: string, t1: Long, t2: Long)
    requires !IsBlank(message)
    ensures var r := Completed(Selected(Sent(s, message, id1, t1), other), outcome, id2, t2);
            && r.messages == s.messages + [UserMessage(message, s.selectedModel, id1, t1),
                                           AssistantMessage(outcome, other, id2, t2)]
            && r.messages[|s.messages|].modelId == s.selectedModel.id
            && r.messages[|s.messages| + 1].modelId == other.id
            && r.messages[|s.messages| + 1].modelName == other.displayName
  {
  }

  /** A completion lowers the flag even while a second request is still
      outstanding, and keeps the messages appended in between. The second
      send happens while the flag is up, which the screen's send button
      refuses (`ClickSend` keeps `OneInFlight`): this state is reached only
      by calling the view-model directly. */
  lemma CompletionClearsFlagWithRequestOutstanding(s: ChatUiState, m1: string, m2: string, outcome: Try<string>,
                                                   id1: string, id2: string, id3: string, t1: Long, t2: Long, t3: Long)
    requires !IsBlank(m1) && !IsBlank(m2)
    ensures var r := Completed(Sent(Sent(s, m1, id1, t1), m2, id2, t2), outcome, id3, t3);
            && !r.isLoading
            && r.messages == s.messages + [UserMessage(m1, s.selectedModel, id1, t1),
                                           UserMessage(m2, s.selectedModel, id2, t2),
                                           AssistantMessage(outcome, s.selectedModel, id3, t3)]
  {
  }

  /** The log is append-only: every run keeps the earlier log as a prefix. */
  lemma {:induction false} RunKeepsHistory(s: ChatUiState, events: seq<Event>)
    ensures s.messages <= Run(s, events).messages
    decreases |events|
  {
    if events != [] {
      RunKeepsHistory(Step(s, events[0]), events[1..]);
    }
  }

  /** Each non-blank send adds exactly one user message and each completion
      exactly one assistant message; nothing else adds any. */
  lemma {:induction false} RunCounts(s: ChatUiState, events: seq<Event>)
    ensures CountFromUser(Run(s, events).messages) == CountFromUser(s.messages) + NonBlankSends(events)
    ensures CountReplies(Run(s, events).messages) == CountReplies(s.messages) + Completions(events)
    ensures |Run(s, events).messages| == |s.messages| + NonBlankSends(events) + Completions(events)
    decreases |events|
  {
    if events != [] {
      var t := Step(s, events[0]);
      assert t.messages != s.messages ==> t.messages[..|t.messages| - 1] == s.messages;
      RunCounts(t, events[1..]);
    }
  }

  /** The event sequences the app can produce when `pending` coroutines
      are outstanding at the start: a completion only ever resumes a
      coroutine launched by an earlier non-blank send. */
  predicate Feasible(events: seq<Event>, pending: nat)
    decreases |events|
  {
    if events == [] then true
    else match events[0]
      case Send(message, _, _) => Feasible(events[1..], if IsBlank(message) then pending else pending + 1)
      case Select(_) => Feasible(events[1..], pending)
      case Complete(_, _, _) => pending > 0 && Feasible(events[1..], pending - 1)
  }

  /** In a feasible run, completions never outnumber the coroutines that
      were outstanding or launched. */
  lemma {:induction false} FeasibleCompletions(events: seq<Event>, pending: nat)
    requires Feasible(events, pending)
    ensures Completions(events) <= pending + NonBlankSends(events)
    decreases |events|
  {
    if events != [] {
      match events[0]
      case Send(message, _, _) =>
        FeasibleCompletions(events[1..], if IsBlank(message) then pending else pending + 1);
      case Select(_) =>
        FeasibleCompletions(events[1..], pending);
      case Complete(_, _, _) =>
        FeasibleCompletions(events[1..], pending - 1);
    }
  }

  /** Exactly one assistant message per send, never more: if every user
      message is answered or awaited by one of `pending` coroutines, then
      after any feasible run the same holds, and the log never holds more
      replies than user messages. */
  lemma RepliesMatchSends(s: ChatUiState, events: seq<Event>, pending: nat)
    requires CountFromUser(s.messages) == CountReplies(s.messages) + pending
    requires Feasible(events, pending)
    ensures var r := Run(s, events);
            && CountReplies(r.messages) <= CountFromUser(r.messages)
            && CountFromUser(r.messages)
               == CountReplies(r.messages) + (pending + NonBlankSends(events) - Completions(events))
  {
    RunCounts(s, events);
    FeasibleCompletions(events, pending);
  }

  /** The flag is the one set by the last non-blank send (raised) or
      completion (lowered); with neither, it is unchanged. */
  lemma {:induction false} RunLoadingFlag(s: ChatUiState, events: seq<Event>)
    ensures Run(s, events).isLoading == LastLoadingSet(events).GetOr(s.isLoading)
    decreases |events|
  {
    if events != [] {
      RunLoadingFlag(Step(s, events[0]), events[1..]);
    }
  }

  /** The selected model is the last one selected, or the initial one. */
  lemma {:induction false} RunSelection(s: ChatUiState, events: seq<Event>)
    ensures Run(s, events).selectedModel == LastSelection(events).GetOr(s.selectedModel)
    decreases |events|
  {
    if events != [] {
      RunSelection(Step(s, events[0]), events[1..]);
    }
  }

  /** A full exchange from the screen: a non-blank send, the repository
      asked for the pending reply, then the completion. Two messages are
      appended, the user's and the reply, and the flag ends lowered. For a
      registry model exactly one API call is made, carrying the text as
      the view-model received it. */
  lemma ExchangeWithRepository(s: ChatUiState, message: string, xaiApi: ChatRepository.ProviderApi,
                               groqApi: ChatRepository.ProviderApi, id1: string, id2: string, t1: Long, t2: Long)
    requires !IsBlank(message)
    ensures var reply := ChatRepository.GetResponse(message, s.selectedModel, xaiApi, groqApi);
            var r := Completed(Sent(s, message, id1, t1), reply.outcome, id2, t2);
            && r.messages == s.messages + [UserMessage(message, s.selectedModel, id1, t1),
                                           AssistantMessage(reply.outcome, s.selectedModel, id2, t2)]
            && !r.isLoading
            && (s.selectedModel in AvailableModels ==>
                  |reply.calls| == 1 && reply.calls[0].request.messages[0].content == message)
  {
    ChatRepository.RegistryModelsSupported(message, xaiApi, groqApi);
  }
}
