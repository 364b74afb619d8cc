/** A message of the conversation the view-model holds. The random id and
    the wall-clock timestamp the source fills in by default are supplied by
    the caller. A user message leaves `modelName` empty. */
module UiModels {
  import opened Kotlin

  datatype ChatMessage = ChatMessage(
    id: string,
    text: string,
    isFromUser: bool,
    modelId: string,
    modelName: string,
    timestamp: Long)
}
