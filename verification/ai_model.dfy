/** The model registry: the five hosted models the chat screen offers. */
module AIModels {

  /** A selectable model. `isLocal` defaults to false in the source. */
  datatype AIModel = AIModel(
    id: string,
    displayName: string,
    description: string,
    maxTokens: int,
    isLocal: bool)

  // x.ai (Grok) models

  const GrokBeta: AIModel := AIModel(
    "grok-beta", "Grok Beta",
    "x.ai's powerful conversational AI model", 8192, false)

  // Groq Cloud models

  const GroqLlama3_70B: AIModel := AIModel(
    "llama3-70b-8192", "Llama 3 70B (Groq)",
    "Meta's Llama 3 70B on Groq's ultra-fast inference", 8192, false)

  const GroqLlama3_8B: AIModel := AIModel(
    "llama3-8b-8192", "Llama 3 8B (Groq)",
    "Faster Llama 3 8B model on Groq infrastructure", 8192, false)

  const GroqMixtral8x7B: AIModel := AIModel(
    "mixtral-8x7b-32768", "Mixtral 8x7B (Groq)",
    "Mistral's mixture-of-experts model on Groq", 32768, false)

  const GroqGemma7B: AIModel := AIModel(
    "gemma-7b-it", "Gemma 7B (Groq)",
    "Google's Gemma 7B instruction-tuned on Groq", 8192, false)

  /** The companion's `availableModels`, in list order. */
  const AvailableModels: seq<AIModel> :=
    [GrokBeta, GroqLlama3_70B, GroqLlama3_8B, GroqMixtral8x7B, GroqGemma7B]

  /** The model a fresh conversation starts with: the data class's default
      and the one the view-model's initialiser selects, GROQ_LLAMA_3_70B. */
  const DefaultModel: AIModel := GroqLlama3_70B

  /** The ids of the registry, in list order. */
  function RegistryIds(): (ids: seq<string>)
    ensures |ids| == |AvailableModels|
    ensures forall i :: 0 <= i < |ids| ==> ids[i] == AvailableModels[i].id
  {
    seq(|AvailableModels|, i requires 0 <= i < |AvailableModels| => AvailableModels[i].id)
  }

  /** The registry lists the five constants, Grok first, and their ids are
      exactly the five strings below. */
  lemma RegistryContents()
    ensures |AvailableModels| == 5
    ensures AvailableModels[0] == GrokBeta && AvailableModels[1] == GroqLlama3_70B
    ensures AvailableModels[2] == GroqLlama3_8B && AvailableModels[3] == GroqMixtral8x7B
    ensures AvailableModels[4] == GroqGemma7B
    ensures RegistryIds() == ["grok-beta", "llama3-70b-8192", "llama3-8b-8192",
                              "mixtral-8x7b-32768", "gemma-7b-it"]
  {
  }

  /** No two registry entries share an id, so an id names one model. */
  lemma RegistryIdsDistinct()
    ensures forall i, j :: 0 <= i < j < |AvailableModels| ==>
              AvailableModels[i].id != AvailableModels[j].id
  {
    forall i, j | 0 <= i < j < |AvailableModels|
      ensures AvailableModels[i].id != AvailableModels[j].id
    {
      // The five ids all have different lengths.
      var a, b := AvailableModels[i].id, AvailableModels[j].id;
      assert |a| != |b|;
    }
  }

  /** Every registry model has a positive token cap: 32768 for Mixtral and
      8192 for the others; and none runs locally. */
  lemma RegistryLimits()
    ensures forall m :: m in AvailableModels ==> m.maxTokens > 0 && !m.isLocal
    ensures forall m :: m in AvailableModels ==>
              m.maxTokens == (if m == GroqMixtral8x7B then 32768 else 8192)
  {
  }

  /** The default model is one of the registry's entries, the second one. */
  lemma DefaultModelRegistered()
    ensures DefaultModel in AvailableModels
    ensures AvailableModels[1] == DefaultModel
  {
  }
}
