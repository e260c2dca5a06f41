/**
 * The SiliconFlow adapter: Qwen models behind an OpenAI-compatible endpoint,
 * all without tools or vision; multimodal content is sent as one JSON string.
 */
module SiliconFlowAdapter {
  import opened Base
  import opened LlmTypes
  import opened Stream
  import opened Seqs
  import opened Registry
  import opened OpenAICompat

  const DefaultBaseURL := "https://api.siliconflow.cn/v1"

  function Provider(): (p: TextProvider)
    ensures p.id == "siliconflow" && p.requiresApiKey && p.supportsDynamicModels && p.defaultBaseURL == DefaultBaseURL
  {
    TextProvider("siliconflow", "SiliconFlow", Some("SiliconFlow OpenAI-compatible models"), true, DefaultBaseURL, true)
  }

  /** Neither tools nor vision, 128000 tokens. */
  predicate PlainTextModel(m: TextModel) {
    m.providerId == "siliconflow" && !m.capabilities.supportsTools && !HasVision(m)
    && m.capabilities.maxContextLength == Some(128000)
  }

  function Static(id: string, name: string, description: string): TextModel {
    MakeModel(id, name, Some(description), "siliconflow", false, false, 128000)
  }

  /** The built-in list: four Qwen2.5 instruct models, every one a plain text model. */
  function StaticModels(): (ms: seq<TextModel>)
    ensures |ms| == 4
    ensures forall i :: 0 <= i < |ms| ==> PlainTextModel(ms[i])
  {
    [ Static("Qwen/Qwen2.5-72B-Instruct", "Qwen2.5-72B-Instruct", "Qwen2.5 72B via SiliconFlow"),
      Static("Qwen/Qwen2.5-32B-Instruct", "Qwen2.5-32B-Instruct", "Qwen2.5 32B via SiliconFlow"),
      Static("Qwen/Qwen2.5-14B-Instruct", "Qwen2.5-14B-Instruct", "Qwen2.5 14B via SiliconFlow"),
      Static("Qwen/Qwen2.5-7B-Instruct", "Qwen2.5-7B-Instruct", "Qwen2.5 7B via SiliconFlow") ]
  }

  function AsAdapter(): (a: Adapter)
    ensures a.provider == Provider() && a.staticModels == StaticModels() && a.hasModelsAsync
  {
    Adapter(Provider(), StaticModels(), true)
  }

  function BuildDefaultModel(modelId: string): (m: TextModel)
    ensures m.id == modelId && m.name == modelId && m.description == Some(modelId)
    ensures PlainTextModel(m)
  {
    MakeModel(modelId, modelId, Some(modelId), "siliconflow", false, false, 128000)
  }

  /** A listed id yields the same descriptor as a default-built one. */
  function ListedModel(id: string): (m: TextModel)
    ensures m == BuildDefaultModel(id)
  {
    MakeModel(id, id, Some(id), "siliconflow", false, false, 128000)
  }

  function ListRequestFor(config: TextModelConfig): ListRequest {
    ListRequest(OrElse(config.connectionConfig.baseURL, DefaultBaseURL), config.connectionConfig.apiKey)
  }

  /**
   * `getModelsAsync`: every listed id, in order, as a plain text model named
   * and described by its id; failures rethrown unchanged.
   */
  function GetModelsAsync(config: TextModelConfig, list: ListRequest -> Result<seq<string>>): (r: Result<seq<TextModel>>)
    ensures var listed := list(ListRequestFor(config));
      (listed.Err? ==> r == Err(listed.error))
      && (listed.Ok? ==>
            r.Ok? && |r.value| == |listed.value|
            && forall i :: 0 <= i < |r.value| ==>
                 r.value[i] == BuildDefaultModel(listed.value[i])
                 && r.value[i].id == listed.value[i] && r.value[i].name == listed.value[i]
                 && r.value[i].description == Some(listed.value[i])
                 && PlainTextModel(r.value[i]))
  {
    match list(ListRequestFor(config))
    case Err(e) => Err(e)
    case Ok(ids) => Ok(Map(ids, ListedModel))
  }

  function SendMessage(messages: seq<Message>, config: TextModelConfig, serialize: seq<ContentPart> -> string,
                       call: ChatRequest<FlatMessage> -> Result<ChatCompletion>): (r: Result<LLMResponse>)
    ensures var reply := call(RequestFor(config, Flatten(messages, serialize), DefaultBaseURL, false));
      (reply.Err? ==> r == Err(reply.error))
      && (reply.Ok? ==> r == ShapeResponse(reply.value, "SiliconFlow"))
  {
    match call(RequestFor(config, Flatten(messages, serialize), DefaultBaseURL, false))
    case Err(e) => Err(e)
    case Ok(resp) => ShapeResponse(resp, "SiliconFlow")
  }

  method SendMessageStream(messages: seq<Message>, config: TextModelConfig, serialize: seq<ContentPart> -> string,
                           open: ChatRequest<FlatMessage> -> ChunkStream) returns (run: StreamRun)
    ensures var source := open(RequestFor(config, Flatten(messages, serialize), DefaultBaseURL, true));
      run == ExpectedRun(DeltaTexts(source.chunks), source.failure)
  {
    run := StreamChat(RequestFor(config, Flatten(messages, serialize), DefaultBaseURL, true), open);
  }
}
