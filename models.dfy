/**
 * The constant catalogue of the initialize route: the four model types and
 * the ten models the selector lists.
 */
module ModelCatalog {

  /** One catalogue entry; `modelType` is the entry's `type`. */
  datatype ModelInfo = ModelInfo(id: string, name: string, description: string, strengths: string, modelType: string)

  const Types: seq<string> := ["Chat Models", "Text Models", "Code Models", "Image Models"]

  const Models: seq<ModelInfo> := [
    ModelInfo("gpt-4o", "gpt-4o",
      "The latest GPT-4 model with improved capabilities across reasoning, proficiency, and speed.",
      "Excellent at complex reasoning, creative content generation, and detailed conversations.",
      "Chat Models"),
    ModelInfo("gpt-4-turbo", "gpt-4-turbo",
      "The most capable GPT-4 model optimized for chat at a lower cost.",
      "Excellent at complex reasoning, creative content generation, and detailed conversations.",
      "Chat Models"),
    ModelInfo("gpt-4", "gpt-4",
      "GPT-4 is more capable than any GPT-3.5 model, able to do more complex tasks.",
      "Complex reasoning, domain expertise, creative content generation.",
      "Chat Models"),
    ModelInfo("gpt-3.5-turbo", "gpt-3.5-turbo",
      "Most capable GPT-3.5 model optimized for chat at 1/10th the cost of text-davinci-003.",
      "Quick responses, cost-effective, good for most everyday tasks.",
      "Chat Models"),
    ModelInfo("claude-3-opus", "claude-3-opus",
      "Anthropic's most powerful model for highly complex tasks.",
      "Reasoning, mathematics, coding, and creative writing.",
      "Chat Models"),
    ModelInfo("claude-3-sonnet", "claude-3-sonnet",
      "Anthropic's balanced model for a wide range of tasks.",
      "Balanced performance across reasoning, coding, and creative tasks.",
      "Chat Models"),
    ModelInfo("claude-3-haiku", "claude-3-haiku",
      "Anthropic's fastest and most compact model.",
      "Speed, cost-effectiveness, and good performance on straightforward tasks.",
      "Chat Models"),
    ModelInfo("text-davinci-003", "text-davinci-003",
      "Most capable GPT-3 model for text generation.",
      "Complex intent, cause and effect, creative generation, search, summarization.",
      "Text Models"),
    ModelInfo("code-davinci-002", "code-davinci-002",
      "Most capable Codex model for code generation.",
      "Translating natural language to code, completing code, fixing bugs.",
      "Code Models"),
    ModelInfo("dall-e-3", "dall-e-3",
      "Most capable image generation model from OpenAI.",
      "Creating photorealistic images from text descriptions.",
      "Image Models")
  ]

  predicate DistinctStrings(s: seq<string>) {
    forall i, j :: 0 <= i < j < |s| ==> s[i] != s[j]
  }

  /** No two entries share an id. */
  predicate UniqueIds(models: seq<ModelInfo>) {
    forall i, j :: 0 <= i < j < |models| ==> models[i].id != models[j].id
  }

  /** No two entries share a name. */
  predicate UniqueNames(models: seq<ModelInfo>) {
    forall i, j :: 0 <= i < j < |models| ==> models[i].name != models[j].name
  }

  /** All ten ids are distinct. */
  lemma IdsAreDistinct()
    ensures |Models| == 10 && UniqueIds(Models)
  {
  }

  /** Every model's name is its id, so names are distinct too. */
  lemma NamesAreIds()
    ensures forall i :: 0 <= i < |Models| ==> Models[i].name == Models[i].id
    ensures UniqueNames(Models)
  {
    IdsAreDistinct();
  }

  /** Every model's type is one of the four types, the four types are
      distinct, and each of them has at least one model. */
  lemma TypesCoverModels()
    ensures |Types| == 4 && DistinctStrings(Types)
    ensures forall i :: 0 <= i < |Models| ==> Models[i].modelType in Types
    ensures forall t :: t in Types ==> exists i :: 0 <= i < |Models| && Models[i].modelType == t
  {
    assert Models[0].modelType == Types[0];
    assert Models[7].modelType == Types[1];
    assert Models[8].modelType == Types[2];
    assert Models[9].modelType == Types[3];
  }

  /** The first model is `gpt-4o`, the initialize page's default model. */
  lemma FirstModelIsDefault()
    ensures Models[0].id == "gpt-4o" && Models[0].name == "gpt-4o"
  {
  }
}
