# IntelliServe chat core, modelled in Dafny

IntelliServe is an Android chat client. The user picks one of five hosted
language models (Grok on x.ai, or Llama 3, Mixtral and Gemma on Groq Cloud)
and talks to it. This project models the parts of the app that carry
behaviour, leaving out the Compose UI and the Hilt/Retrofit wiring:

- **The conversation state machine** (`ChatViewModel`): an append-only
  message log, the selected model and a loading flag. Sending appends the
  user's message and raises the flag. The reply coroutine later appends one
  reply or error message and lowers the flag.
  - The class `ChatViewModel.ChatViewModel` has one method per step:
    `SendMessage`, `Complete` and `SelectModel`.
  - The pure transitions `Sent`, `Completed` and `Selected` specify those
    methods. Folded over any sequence of events, they give the lemmas about
    interleavings.
- **Provider routing and response normalisation** (`ChatRepositoryImpl`,
  `XAIService`, `GroqService`).
  - Routing is a lookup from model id to backend, with an unsupported-model
    error for any other id.
  - Each backend client builds a one-message request and makes exactly one
    API call. It returns the first choice's text, or a "No response from …"
    sentinel, or rethrows the failure with a message naming the model.
  - The HTTP APIs are function parameters. Every result lists the calls
    made.
- **The model registry** (`AIModel` companion): five constant records and the
  list `availableModels`.
- **The main chat screen's logic** (`ui/chat/ChatScreen.kt`):
  - the relative-time label `formatTimestamp`, with the clock reading passed
    in as a parameter;
  - the input box and its send button. The button forwards the trimmed text
    only when the text is not blank and no reply is loading.
- **The mock chat screen** (`ui/screens/chat/ChatScreen.kt`): an id-to-name
  lookup and a send handler.
  - The handler appends the user's text at once.
  - A canned reply follows after a delay. Replies still in their delay are
    kept in a FIFO `scheduled`.
- **Navigation routes** (`Screen`): three fixed routes and `"chat/" + id`.

Kotlin's own behaviour is written out in module `Kotlin`:

- `String.isBlank` and `String.trim`, over the JVM's `Char.isWhitespace`
  set;
- 64-bit `Long` subtraction with two's-complement wrap-around;
- how a `Long` is rendered in a string template, and how a `null` string is
  rendered as `null`.

Failures are written as `Try` values: `Ok(value)`, or `Thrown(message)`
where the message may be absent.

Files:

| file | module | covers |
|---|---|---|
| `wrappers.dfy` | `Wrappers` | `Option`, `Try` |
| `kotlin.dfy` | `Kotlin` | whitespace, `isBlank`, `trim`, `Long`, decimal rendering |
| `ai_model.dfy` | `AIModels` | `AIModel`, the five constants, `availableModels` |
| `chat_api.dfy` | `ChatApi` | request and response records of the chat-completion API |
| `chat_repository.dfy` | `ChatRepository` | routing and the two provider clients |
| `chat_message.dfy` | `UiModels` | the view-model's `ChatMessage` |
| `chat_view_model.dfy` | `ChatViewModel` | `ChatUiState`, the view-model class, runs of events |
| `chat_screen.dfy` | `ChatScreen` | `formatTimestamp`, the input box and send button, screen-to-view-model wiring |
| `mock_chat_screen.dfy` | `MockChatScreen` | the mock chat screen |
| `screen.dfy` | `Screen` | routes |

Some behaviours of the code worth noting:

- The controller has no busy check. Only the screen's send button does.
- A reply is attributed to the model selected when it arrives, not the one
  it was requested from.
- The user's message carries the selected model's id.
- The default model, Llama 3 70B, is the second entry of `availableModels`,
  not the first.
- Routing is by model id.

## Model

| member | source | states |
|---|---|---|
| Kotlin.TrimStart | app/src/main/java/com/example/intelliserve/ui/chat/ChatScreen.kt:232 | The result is a suffix of the input that does not start with whitespace, and the removed prefix is blank. |
| Kotlin.TrimEnd | app/src/main/java/com/example/intelliserve/ui/chat/ChatScreen.kt:232 | The result is a prefix of the input that does not end with whitespace, and the removed suffix is blank. |
| Kotlin.Trim | app/src/main/java/com/example/intelliserve/ui/chat/ChatScreen.kt:232 | `trim()` is no longer than its input. A non-empty result starts and ends with a non-whitespace character. It is `TrimEnd` of `TrimStart`, so by their contracts it is the input with a blank prefix and a blank suffix removed. |
| Kotlin.BlankIffTrimEmpty | app/src/main/java/com/example/intelliserve/ui/chat/ChatScreen.kt:231-232 | `isBlank()` (the predicate `Kotlin.IsBlank`: every character is whitespace) holds exactly when `trim()` is empty. |
| Kotlin.TrimNonBlank | app/src/main/java/com/example/intelliserve/ui/chat/ChatScreen.kt:231-232 | Trimming a non-blank text gives a non-blank, non-empty text. |
| Kotlin.TrimIdempotent | app/src/main/java/com/example/intelliserve/ui/chat/ChatScreen.kt:232 | Trimming twice is trimming once. |
| Kotlin.WrapLong | app/src/main/java/com/example/intelliserve/ui/chat/ChatScreen.kt:342 | The result is congruent to the input modulo 2^64, and equals the input when it fits in a `Long`. |
| Kotlin.SubLong | app/src/main/java/com/example/intelliserve/ui/chat/ChatScreen.kt:342 | `now - timestamp` on `Long`: the exact difference when it fits, otherwise that difference shifted by 2^64 in the direction that brings it back into range. |
| Kotlin.DecimalString | app/src/main/java/com/example/intelliserve/ui/chat/ChatScreen.kt:346-348 | A count rendered in a template is a non-empty string of digits, with no leading zero unless the count is 0. |
| Kotlin.ParseDecimalString | app/src/main/java/com/example/intelliserve/ui/chat/ChatScreen.kt:346-348 | Reading the rendered digits back gives the count. |
| Kotlin.DecimalStringInjective | app/src/main/java/com/example/intelliserve/ui/chat/ChatScreen.kt:346-348 | Different counts render differently. |
| Kotlin.TemplateOf | app/src/main/java/com/example/intelliserve/data/repository/ChatRepository.kt:55 | A nullable string in a template shows its value, or `null` when it is null. |
| AIModels.RegistryIds | app/src/main/java/com/example/intelliserve/ui/models/AIModel.kt:20-26 | Lists the registry's ids position by position. |
| AIModels.RegistryContents | app/src/main/java/com/example/intelliserve/ui/models/AIModel.kt:20-63 | `availableModels` is GROK_BETA, GROQ_LLAMA_3_70B, GROQ_LLAMA_3_8B, GROQ_MIXTRAL_8X7B, GROQ_GEMMA_7B, in that order, with the five literal ids. |
| AIModels.RegistryIdsDistinct | app/src/main/java/com/example/intelliserve/ui/models/AIModel.kt:29-63 | No two registry entries share an id. |
| AIModels.RegistryLimits | app/src/main/java/com/example/intelliserve/ui/models/AIModel.kt:16-63 | Every registry model has a positive token cap (32768 for Mixtral, 8192 for the rest) and none is local. |
| AIModels.DefaultModelRegistered | app/src/main/java/com/example/intelliserve/ui/models/AIModel.kt:20-42 | The default model, GROQ_LLAMA_3_70B, is in `availableModels`, at index 1. It is the model `InitialUiState` holds and the constructor selects. |
| ChatApi.NewChatRequest | app/src/main/java/com/example/intelliserve/data/api/models/ChatRequest.kt:5-20 | A request built from a model and messages has temperature 0.7, no token cap and no streaming. |
| ChatRepository.BuildRequest | app/src/main/java/com/example/intelliserve/data/repository/ChatRepository.kt:39-49 | The outgoing request carries the model's id and token cap, temperature 0.7, no streaming, and exactly one message: role "user", content the text. |
| ChatRepository.ResponseText | app/src/main/java/com/example/intelliserve/data/repository/ChatRepository.kt:52-53 | With at least one choice, the text is the first choice's content. With none, it is "No response from " and the display name. |
| ChatRepository.FailureMessage | app/src/main/java/com/example/intelliserve/data/repository/ChatRepository.kt:55 | The rethrown failure's message (line 55 for x.ai, line 82 for Groq) starts with "Failed to get response from " and the display name, then ": ", and ends with the cause as a template renders it ("null" for a missing cause). |
| ChatRepository.XaiGetResponse | app/src/main/java/com/example/intelliserve/data/repository/ChatRepository.kt:37-57 | Exactly one call, to the x.ai API, with the built request. A response gives its text. A failure is rethrown once, with a message naming the model. |
| ChatRepository.GroqGetResponse | app/src/main/java/com/example/intelliserve/data/repository/ChatRepository.kt:64-84 | The same contract as the x.ai client, against the Groq API. |
| ChatRepository.GetResponse | app/src/main/java/com/example/intelliserve/data/repository/ChatRepository.kt:21-30 | At most one API call. There is no call exactly when the id is not a registry id, and then the result is the unsupported-model failure. Every failure carries a message. |
| ChatRepository.GrokRoutedToXai | app/src/main/java/com/example/intelliserve/data/repository/ChatRepository.kt:23 | "grok-beta" goes to the x.ai client, with one x.ai call. |
| ChatRepository.GroqIdsRoutedToGroq | app/src/main/java/com/example/intelliserve/data/repository/ChatRepository.kt:24-27 | The four Groq ids go to the Groq client, with one Groq call. |
| ChatRepository.UnsupportedModelRejected | app/src/main/java/com/example/intelliserve/data/repository/ChatRepository.kt:28 | An id outside the registry fails with "Unsupported model: <id>" and makes no call, and this result happens only for such ids. |
| ChatRepository.RegistryModelsSupported | app/src/main/java/com/example/intelliserve/data/repository/ChatRepository.kt:22-28 | Every model in `availableModels` is routed: exactly one call, with that model's request. |
| ChatRepository.ProviderClientsAgree | app/src/main/java/com/example/intelliserve/data/repository/ChatRepository.kt:37-84 | Given the same API outcome, the two clients return the same result and send the same request. |
| ChatRepository.LlamaHelloScenario | app/src/main/java/com/example/intelliserve/data/repository/ChatRepository.kt:64-80 | "Hello" to Llama 3 70B sends one user message "Hello" with cap 8192. A response without choices gives "No response from Llama 3 70B (Groq)", not a failure. |
| ChatRepository.ApiFailureWrapped | app/src/main/java/com/example/intelliserve/data/repository/ChatRepository.kt:54-56 | For a registry model, an API failure reaches the caller as "Failed to get response from <name>: <cause>", or "…: null" when the cause has no message. |
| ChatViewModel.ChatViewModel.constructor | app/src/main/java/com/example/intelliserve/ui/chat/ChatViewModel.kt:21-27 | A fresh view-model has no messages, is not loading, and has GROQ_LLAMA_3_70B selected. No coroutine is outstanding, so `Valid()` and `OneInFlight()` (at most one request out, flag up exactly while it is) hold. |
| ChatViewModel.ChatViewModel.SendMessage | app/src/main/java/com/example/intelliserve/ui/chat/ChatViewModel.kt:29-52 | Keeps the invariant `Valid()`: user messages equal replies plus outstanding coroutines. Blank text changes nothing and launches nothing. Otherwise one user message is appended (untrimmed text, selected model's id), the flag is raised whatever it was, and the reply is requested from the model selected now. A send with the flag down from a state with nothing in flight leaves exactly one request in flight with the flag up. |
| ChatViewModel.ChatViewModel.Complete | app/src/main/java/com/example/intelliserve/ui/chat/ChatViewModel.kt:54-81 | Resumes one outstanding coroutine; it can only be called when one is outstanding. Appends one assistant message to the current log and lowers the flag. The message holds the reply text or "Error: " plus the cause, and is attributed to the model selected now. `Valid()` is kept, with one fewer coroutine outstanding. From a state with one request in flight it returns to none in flight with the flag down. |
| ChatViewModel.ChatViewModel.SelectModel | app/src/main/java/com/example/intelliserve/ui/chat/ChatViewModel.kt:86-88 | Only the selection changes; `Valid()`, `OneInFlight()` and the outstanding count are kept. |
| ChatViewModel.Sent | app/src/main/java/com/example/intelliserve/ui/chat/ChatViewModel.kt:29-44 | `sendMessage`'s state change. Blank text leaves the whole state unchanged. Otherwise exactly one message is appended, and earlier messages are kept. The new message is from the user, holds the untrimmed text and carries the selected model's id. The flag is raised and the selection is kept. |
| ChatViewModel.Completed | app/src/main/java/com/example/intelliserve/ui/chat/ChatViewModel.kt:54-81 | The coroutine's state change. Exactly one message, not from the user, is appended after the current log, and earlier messages are kept. Its text is the reply, "Error: <cause>", or "Error: Unknown error occurred". Its id and name are those of the model selected at completion. The flag is lowered and the selection is kept. |
| ChatViewModel.Selected | app/src/main/java/com/example/intelliserve/ui/chat/ChatViewModel.kt:86-88 | `selectModel`'s state change. The selection becomes the given model, and the messages and the flag stay as they were. |
| ChatViewModel.SecondSendWhileLoading | app/src/main/java/com/example/intelliserve/ui/chat/ChatViewModel.kt:29-44 | There is no busy check: a second non-blank send while loading still appends a second user message. |
| ChatViewModel.ReplyAttributedAtCompletion | app/src/main/java/com/example/intelliserve/ui/chat/ChatViewModel.kt:51-58 | Sending under one model and completing after selecting another attributes the reply to the other model. The user message keeps the first model's id. |
| ChatViewModel.CompletionClearsFlagWithRequestOutstanding | app/src/main/java/com/example/intelliserve/ui/chat/ChatViewModel.kt:61-80 | With two requests outstanding, the first completion lowers the flag and appends after both user messages. The second send is made while loading, which the send button refuses, so this state is reached only by calling the view-model directly. |
| ChatViewModel.RunKeepsHistory | app/src/main/java/com/example/intelliserve/ui/chat/ChatViewModel.kt:39-80 | Over any sequence of sends, selections and completions, the earlier log stays a prefix. |
| ChatViewModel.RunCounts | app/src/main/java/com/example/intelliserve/ui/chat/ChatViewModel.kt:29-81 | Over any sequence of events, user messages grow by the number of non-blank sends, replies by the number of completions, and nothing else is added. |
| ChatViewModel.FeasibleCompletions | app/src/main/java/com/example/intelliserve/ui/chat/ChatViewModel.kt:47-83 | In any run the app can produce, the completions never outnumber the coroutines outstanding at the start plus those launched by non-blank sends. |
| ChatViewModel.RepliesMatchSends | app/src/main/java/com/example/intelliserve/ui/chat/ChatViewModel.kt:29-83 | One assistant message per send, never more. Start from a state where every user message is answered or awaited. After any run the app can produce, that still holds, and the log never has more replies than user messages. |
| ChatViewModel.RunLoadingFlag | app/src/main/java/com/example/intelliserve/ui/chat/ChatViewModel.kt:39-80 | The flag is the one set by the last non-blank send or completion, or unchanged if there was neither. |
| ChatViewModel.RunSelection | app/src/main/java/com/example/intelliserve/ui/chat/ChatViewModel.kt:86-88 | The selected model is the last one selected, or the initial one. |
| ChatViewModel.ExchangeWithRepository | app/src/main/java/com/example/intelliserve/ui/chat/ChatViewModel.kt:47-66 | A non-blank send answered by the repository appends the user message and the reply and lowers the flag. For a registry model it makes exactly one API call carrying the text. |
| ChatScreen.ParseCountLabel | app/src/main/java/com/example/intelliserve/ui/chat/ChatScreen.kt:346-348 | A "<n>m ago", "<n>h ago" or "<n>d ago" label reads back as n in that unit. |
| ChatScreen.FormatTimestamp | app/src/main/java/com/example/intelliserve/ui/chat/ChatScreen.kt:340-350 | Every label reads back as an age that describes the wrapped difference. `Describes` is an independent set of inequalities: under a minute is "Just now"; then whole minutes 1..59, whole hours 1..23, or whole days of at least 1. A count is written without a leading zero, as a `Long` template writes it. |
| ChatScreen.DescribesUnique | app/src/main/java/com/example/intelliserve/ui/chat/ChatScreen.kt:344-349 | The buckets are disjoint: at most one age describes a difference. |
| ChatScreen.FormatTimestampNoOverflow | app/src/main/java/com/example/intelliserve/ui/chat/ChatScreen.kt:341-345 | Without overflow the label describes the real elapsed time, and a future timestamp reads "Just now". |
| ChatScreen.MessageInput.constructor | app/src/main/java/com/example/intelliserve/ui/chat/ChatScreen.kt:35 | The input starts empty. |
| ChatScreen.MessageInput.OnValueChange | app/src/main/java/com/example/intelliserve/ui/chat/ChatScreen.kt:204-205 | Typing replaces the text. |
| ChatScreen.MessageInput.OnClearClick | app/src/main/java/com/example/intelliserve/ui/chat/ChatScreen.kt:213-215 | The clear icon, shown for non-empty text, empties it. |
| ChatScreen.MessageInput.OnSendClick | app/src/main/java/com/example/intelliserve/ui/chat/ChatScreen.kt:230-234 | Non-blank text while not loading is sent trimmed and the box is cleared. Otherwise nothing is sent and the text stays. |
| ChatScreen.SentTextIsTrimmedNonBlank | app/src/main/java/com/example/intelliserve/ui/chat/ChatScreen.kt:231-232 | What the button sends is non-blank and already trimmed. |
| ChatScreen.ClickSend | app/src/main/java/com/example/intelliserve/ui/IntelliServeApp.kt:33-36 | Button wired to `sendMessage`. While loading, or with blank text, nothing changes. Otherwise the view-model gets exactly one user message holding the trimmed text. It starts loading and keeps its selection, one more request is outstanding, and the box is cleared. `Valid()` is kept, and so is `OneInFlight()`: through the button, at most one request is ever in flight and the flag is up exactly while it is. |
| MockChatScreen.KnownModelNames | app/src/main/java/com/example/intelliserve/ui/screens/chat/ChatScreen.kt:35-39 | gpt-4 → "GPT-4", claude-2 → "Claude 2", llama-2 → "Llama 2", palm-2 → "PaLM 2". |
| MockChatScreen.ModelName | app/src/main/java/com/example/intelliserve/ui/screens/chat/ChatScreen.kt:35-41 | An id gets "AI Assistant" exactly when the home list does not offer it, so every home-list id gets its own name. |
| MockChatScreen.SimulatedReplyText | app/src/main/java/com/example/intelliserve/ui/screens/chat/ChatScreen.kt:97-101 | The canned reply is the fixed opening, then the model's name, then the fixed closing, each at a known position. |
| MockChatScreen.SimulatedReplyInjective | app/src/main/java/com/example/intelliserve/ui/screens/chat/ChatScreen.kt:97-101 | Differently named models give different canned replies. |
| MockChatScreen.MockChatScreen.constructor | app/src/main/java/com/example/intelliserve/ui/screens/chat/ChatScreen.kt:28-41 | The screen is named from its id and starts with no messages and no text. |
| MockChatScreen.MockChatScreen.OnValueChange | app/src/main/java/com/example/intelliserve/ui/screens/chat/ChatScreen.kt:70 | Typing replaces the text and keeps the invariant. |
| MockChatScreen.MockChatScreen.OnSendClick | app/src/main/java/com/example/intelliserve/ui/screens/chat/ChatScreen.kt:86-111 | Blank text changes nothing. Otherwise the untrimmed text is appended as a user message, the canned reply is scheduled with its timestamp fixed now, and the box is cleared. The invariant holds: user messages = replies shown + replies scheduled, no user message is blank, every reply names the model. |
| MockChatScreen.MockChatScreen.ResumeReply | app/src/main/java/com/example/intelliserve/ui/screens/chat/ChatScreen.kt:105-110 | A delayed reply is appended after the current list and nothing is removed. The invariant holds. |
| Screen.CreateRoute | app/src/main/java/com/example/intelliserve/ui/navigation/Screen.kt:6 | `createRoute(m)` is five characters longer than m. It starts with the chat route and a slash, and from the sixth character on it is m. |
| Screen.CreateRouteExtendsChatRoute | app/src/main/java/com/example/intelliserve/ui/navigation/Screen.kt:5-6 | `createRoute(m)` is the chat route, "/", then m. This is also the string the home list builds by hand. |
| Screen.CreateRouteRoundTrip | app/src/main/java/com/example/intelliserve/ui/navigation/Screen.kt:6 | Dropping the first five characters of `createRoute(m)` gives m, and reading the route back gives m. |
| Screen.ModelIdOfRoute | app/src/main/java/com/example/intelliserve/ui/navigation/NavGraph.kt:20-21 | An id is read back exactly from routes starting "chat/", and a route that reads back as id m is `createRoute(m)`. |
| Screen.CreateRouteInjective | app/src/main/java/com/example/intelliserve/ui/navigation/Screen.kt:6 | Different ids give different routes. |
| Screen.RoutesDistinct | app/src/main/java/com/example/intelliserve/ui/navigation/Screen.kt:4-8 | "home", "chat" and "settings" differ, and no created route equals any of them. |

## Left out

- Dependency injection and networking (di/NetworkModule.kt): Hilt providers, OkHttp clients, timeouts, bearer-token headers and logging. This is plumbing with no behaviour of the core.
- The Retrofit interfaces (XAIApiService.kt, and GroqApiService, which is not part of this model): each is a function parameter from request to response or failure.
- The Gson JSON mapping of ChatRequest.kt: the records are datatypes, and their serialised names are not modelled.
- Temperature 0.7 is a `real` constant. The binary floating-point value the app sends is not modelled.
- Coroutines, dispatchers, `delay(500)` and scrolling are not modelled as concurrency. Each coroutine is a later, explicit step: `ChatViewModel.Complete`, and `MockChatScreen.ResumeReply`.
- ChatViewModel.ChatViewModel.SendMessage: the model passed to the repository is read while `sendMessage` runs, because the view-model's dispatcher starts the coroutine immediately on the main thread. The model captures it in the returned `PendingReply`.
- MockChatScreen.MockChatScreen.ResumeReply: delayed replies are delivered oldest first. Equal delays on one main thread give this order, but the model assumes it rather than deriving it.
- `UUID.randomUUID()` and `System.currentTimeMillis()` are parameters: the message id, the message timestamps, and `now` in `formatTimestamp`.
- Compose layout, colours, theming, animation, the model-selector menu's layout, the empty-state view and the typing indicator are left out. So are the navigation hosts, except that NavGraph.kt's route pattern is read back by `Screen.ModelIdOfRoute`.
- The input box is disabled while a reply is loading (ui/chat/ChatScreen.kt:211). That is a property of the widget, not of a handler, so typing is modelled as always allowed. The send button's own check does not depend on it.
- `clearChat`: IntelliServeApp.kt passes `viewModel::clearChat`, but ChatViewModel.kt defines no such member, so there is no behaviour to model.
- AIModels.AvailableModels: Kotlin initialises companion properties in declaration order, and `availableModels` (AIModel.kt:20-26) is declared before the five constants it lists (lines 29-63). These are unqualified forward references: as written, Kotlin rejects them with "Variable 'GROK_BETA' must be initialized". Read qualified (`AIModel.GROK_BETA`), they would give a list of nulls. The model takes the intended list of the five constants in order.
- Screen.ModelIdOfRoute: takes everything after "chat/" as the id. The navigation library's own matching of `{modelId}` as one path segment is not modelled, so ids containing '/' are not covered.
- The records data/model/AIModel.kt (with its icon) and the home screen's model list have no logic. The home list's four ids appear only as `MockChatScreen.HomeModelIds`.
- ChatRepository.ResponseText: a choice's `content` is a non-null string. Gson can fill it with null from a JSON reply, and then `?.content ?: …` (ChatRepository.kt:52, 79) also gives "No response from <name>"; that case is not modelled.
- The whitespace set of `Kotlin.IsWhitespace` is the fixed list of JVM whitespace characters for Unicode's current spaces. Other Unicode versions are not modelled.
