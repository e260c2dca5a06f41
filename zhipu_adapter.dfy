/**
 * The Zhipu adapter: GLM models behind an OpenAI-compatible endpoint. Vision
 * is derived from the id (a GLM-4 model that is not an Air variant), and
 * multimodal content is sent as one JSON string.
 */
module ZhipuAdapter {
  import opened Base
  import opened LlmTypes
  import opened Stream
  import opened Seqs
  import opened Registry
  import opened OpenAICompat

  const DefaultBaseURL := "https://open.bigmodel.cn/api/paas/v4"

  function Provider(): (p: TextProvider)
    ensures p.id == "zhipu" && p.requiresApiKey && p.supportsDynamicModels && p.defaultBaseURL == DefaultBaseURL
  {
    TextProvider("zhipu", "Zhipu AI", Some("Zhipu GLM OpenAI-compatible models"), true, DefaultBaseURL, true)
  }

  /** Vision iff the id contains 'glm-4' and does not contain 'air'. */
  predicate Vision(modelId: string) {
    Contains(modelId, "glm-4") && !Contains(modelId, "air")
  }

  function Static(id: string, name: string, description: string, vision: bool): TextModel {
    MakeModel(id, name, Some(description), "zhipu", true, vision, 128000)
  }

  /** The built-in list: five GLM-4 models with tools and a 128000-token context. */
  function StaticModels(): (ms: seq<TextModel>)
    ensures |ms| == 5
    ensures forall i :: 0 <= i < |ms| ==>
      ms[i].providerId == "zhipu" && ms[i].capabilities.supportsTools
      && ms[i].capabilities.maxContextLength == Some(128000)
  {
    [ Static("glm-4-plus", "GLM-4 Plus", "Zhipu GLM-4 Plus", true),
      Static("glm-4", "GLM-4", "Zhipu GLM-4", true),
      Static("glm-4-flash", "GLM-4 Flash", "Zhipu GLM-4 Flash", true),
      Static("glm-4-air", "GLM-4 Air", "Zhipu GLM-4 Air", false),
      Static("glm-4-airx", "GLM-4 AirX", "Zhipu GLM-4 AirX", false) ]
  }

  predicate FollowsVisionRule(m: TextModel) {
    m.capabilities.supportsVision == Some(Vision(m.id))
  }

  /** The built-in list agrees with the id rule: the Air variants lack vision, the others have it. */
  lemma StaticModelsFollowVisionRule()
    ensures forall i :: 0 <= i < |StaticModels()| ==> FollowsVisionRule(StaticModels()[i])
  {
    forall i | 0 <= i < |StaticModels()| ensures FollowsVisionRule(StaticModels()[i]) {
      StaticModelFollowsVisionRule(i);
    }
  }

  lemma StaticModelFollowsVisionRule(i: nat)
    requires i < |StaticModels()|
    ensures FollowsVisionRule(StaticModels()[i])
  {
    var m := StaticModels()[i];
    if i == 0 || i == 1 {
      VisionWithoutA(m.id);
    } else if i == 2 {
      VisionWithoutI(m.id);
    } else {
      AirLacksVision(m.id);
    }
  }

  lemma VisionWithoutA(modelId: string)
    requires HasAt(modelId, 0, "glm-4") && 'a' !in modelId
    ensures Vision(modelId)
  {
    ContainsAt(modelId, "glm-4", 0);
    NotContainsChar(modelId, "air", 0);
  }

  lemma VisionWithoutI(modelId: string)
    requires HasAt(modelId, 0, "glm-4") && 'i' !in modelId
    ensures Vision(modelId)
  {
    ContainsAt(modelId, "glm-4", 0);
    NotContainsChar(modelId, "air", 1);
  }

  lemma AirLacksVision(modelId: string)
    requires HasAt(modelId, 6, "air")
    ensures !Vision(modelId)
  {
    ContainsAt(modelId, "air", 6);
  }

  function AsAdapter(): (a: Adapter)
    ensures a.provider == Provider() && a.staticModels == StaticModels() && a.hasModelsAsync
  {
    Adapter(Provider(), StaticModels(), true)
  }

  /** Tools, the id rule, 128000 tokens. */
  function BuildDefaultModel(modelId: string): (m: TextModel)
    ensures m.id == modelId && m.name == modelId && m.providerId == "zhipu"
    ensures m.capabilities.supportsTools && m.capabilities.maxContextLength == Some(128000)
    ensures m.capabilities.supportsVision == Some(Vision(modelId))
  {
    MakeModel(modelId, modelId, Some(modelId), "zhipu", true, Vision(modelId), 128000)
  }

  /** One listed id: described by itself, with the same capabilities as a default-built model. */
  function ListedModel(id: string): (m: TextModel)
    ensures m == BuildDefaultModel(id)
    ensures m.description == Some(id) && FollowsVisionRule(m)
  {
    MakeModel(id, id, Some(id), "zhipu", true, Vision(id), 128000)
  }

  function ListRequestFor(config: TextModelConfig): ListRequest {
    ListRequest(OrElse(config.connectionConfig.baseURL, DefaultBaseURL), config.connectionConfig.apiKey)
  }

  /** `getModelsAsync`: every listed id, in order; a listing failure is rethrown unchanged. */
  function GetModelsAsync(config: TextModelConfig, list: ListRequest -> Result<seq<string>>): (r: Result<seq<TextModel>>)
    ensures var listed := list(ListRequestFor(config));
      (listed.Err? ==> r == Err(listed.error))
      && (listed.Ok? ==> r == Ok(Map(listed.value, ListedModel)))
  {
    match list(ListRequestFor(config))
    case Err(e) => Err(e)
    case Ok(ids) => Ok(Map(ids, ListedModel))
  }

  /** `sendMessage`: content flattened to strings, roles kept; a reply without a message is an error. */
  function SendMessage(messages: seq<Message>, config: TextModelConfig, serialize: seq<ContentPart> -> string,
                       call: ChatRequest<FlatMessage> -> Result<ChatCompletion>): (r: Result<LLMResponse>)
    ensures var reply := call(RequestFor(config, Flatten(messages, serialize), DefaultBaseURL, false));
      (reply.Err? ==> r == Err(reply.error))
      && (reply.Ok? ==> r == ShapeResponse(reply.value, "Zhipu"))
  {
    match call(RequestFor(config, Flatten(messages, serialize), DefaultBaseURL, false))
    case Err(e) => Err(e)
    case Ok(resp) => ShapeResponse(resp, "Zhipu")
  }

  /** `sendMessageStream`: the shared loop over the delta texts of the opened stream. */
  method SendMessageStream(messages: seq<Message>, config: TextModelConfig, serialize: seq<ContentPart> -> string,
                           open: ChatRequest<FlatMessage> -> ChunkStream) returns (run: StreamRun)
    ensures var source := open(RequestFor(config, Flatten(messages, serialize), DefaultBaseURL, true));
      run == ExpectedRun(DeltaTexts(source.chunks), source.failure)
  {
    run := StreamChat(RequestFor(config, Flatten(messages, serialize), DefaultBaseURL, true), open);
  }
}
